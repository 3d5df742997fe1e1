/** The `AudioDemo` view-model of demo/app/main-view-model.ts as an object
    whose methods assign its decorated properties step by step. Each method
    is proved to do what the matching function of `AudioDemoSpec` says. */
module MainViewModel {
  import opened ObservableProperty
  import opened AudioDemoSpec

  class AudioDemo {
    /** The decorated properties `isPlaying`, `currentVolume`,
        `audioTrackDuration` and `remainingDuration`. */
    const props: ObservableObject
    /** The duration captured by each `timer.setInterval` started so far. */
    var intervals: seq<int>

    ghost predicate Valid()
      reads this, props
    {
      props.Valid() && Decorated(props.store)
    }

    ghost function State(): Demo
      reads this, props
    {
      Demo(props.Snapshot(), intervals)
    }

    /** `slots` holds the values of the class's decorated slots when this
        instance is built. */
    constructor (slots: map<string, Value>)
      requires Decorated(slots)
      ensures Valid() && fresh(props) && State() == Construct(slots)
    {
      props := new ObservableObject(slots);
      intervals := [];
      new;
      props.Set(CurrentVolumeKey, Num(1));
    }

    method PlayAudio(fileType: string, play: Outcome, duration: DurationReply, audioPlaying: bool)
      requires Valid()
      modifies this, props
      ensures Valid() && State() == AudioDemoSpec.PlayAudio(old(State()), fileType, play, duration, audioPlaying)
    {
      props.Set(IsPlayingKey, Bool(true));
      if fileType == LocalFile {
        if play == Rejected {
          props.Set(IsPlayingKey, Bool(false));
        }
        props.Set(IsPlayingKey, Bool(true));
        match duration {
          case Failed =>
          case Reported(ms) =>
            props.Set(AudioTrackDurationKey, Num(ms));
            var recorded := props.Get(AudioTrackDurationKey);
            StartDurationTracking(recorded.n, audioPlaying);
        }
      } else if fileType == RemoteFile {
        if play == Rejected {
          props.Set(IsPlayingKey, Bool(false));
        }
        props.Set(IsPlayingKey, Bool(true));
      }
    }

    method PauseAudio(pause: Outcome)
      requires Valid()
      modifies props
      ensures Valid() && State() == AudioDemoSpec.PauseAudio(old(State()), pause)
    {
      match pause {
        case Resolved => props.Set(IsPlayingKey, Bool(false));
        case Rejected => props.Set(IsPlayingKey, Bool(true));
      }
    }

    /** The `completeCallback` handed to the player. */
    method OnComplete(dispose: Outcome)
      requires Valid()
      modifies props
      ensures Valid() && State() == AudioDemoSpec.OnComplete(old(State()), dispose)
    {
      if dispose == Resolved {
        props.Set(IsPlayingKey, Bool(false));
      }
    }

    /** The `errorCallback` handed to the player. */
    method OnError()
      requires Valid()
      modifies props
      ensures Valid() && State() == AudioDemoSpec.OnError(old(State()))
    {
      props.Set(IsPlayingKey, Bool(false));
    }

    method StartDurationTracking(duration: int, audioPlaying: bool)
      requires Valid()
      modifies this
      ensures Valid() && State() == AudioDemoSpec.StartDurationTracking(old(State()), duration, audioPlaying)
    {
      if audioPlaying {
        intervals := intervals + [duration];
      }
    }

    /** One firing of the `interval`-th interval's callback. */
    method Tick(interval: nat, currentTime: int)
      requires Valid() && interval < |intervals|
      modifies props
      ensures Valid() && State() == AudioDemoSpec.Tick(old(State()), interval, currentTime)
    {
      props.Set(RemainingDurationKey, Num(intervals[interval] - currentTime));
    }
  }
}

/** The `FatigueAnalyzer` object (automind.py:32-118) and the keyboard branch
    of `DemoUI.run` that writes into it (automind.py:367-387). The clock, the
    audio chunks, the steering value and the drawn driver-state label are
    parameters; speech is the returned announcement. */
module Analyzer {
  import opened AudioEnergy
  import opened FatigueLevels
  import opened TorqueHistory
  import opened Timing
  import opened AnalyzerSpec

  class FatigueAnalyzer {
    var fatigueLevel: Level
    var yawnCount: nat
    var lastUpdate: real
    var steeringValue: real
    var driverState: DriverState
    var audioBuffer: seq<real>
    var lastAlertTime: real
    var torqueHistory: seq<real>
    var simulationSpeed: real
    /** `last_yawn_sim_time`, kept by the run loop across frames. */
    var lastYawnSimTime: real

    /** The analyzer's state as a value. */
    function State(): AnalyzerState
      reads this
    {
      AnalyzerState(fatigueLevel, yawnCount, lastUpdate, steeringValue, driverState,
                    audioBuffer, torqueHistory, simulationSpeed, lastAlertTime, lastYawnSimTime)
    }

    ghost predicate Valid()
      reads this
    {
      AnalyzerSpec.Valid(State())
    }

    /** `FatigueAnalyzer()` at time `now`, followed by the run loop's `last_yawn_sim_time = 0`. */
    constructor (now: real)
      ensures State() == Initial(now)
      ensures Valid()
    {
      fatigueLevel := Normal;
      yawnCount := 0;
      lastUpdate := now;
      steeringValue := 0.0;
      driverState := Focused;
      audioBuffer := [];
      lastAlertTime := now;
      torqueHistory := [];
      simulationSpeed := InitialSpeed;
      lastYawnSimTime := 0.0;
    }

    /** `add_audio_data`: appends the chunk to the buffer and changes nothing else. */
    method AddAudioData(chunk: seq<real>)
      requires Valid()
      modifies this
      ensures Valid()
      ensures State() == AddAudio(old(State()), chunk)
      ensures audioBuffer == old(audioBuffer) + chunk
    {
      audioBuffer := audioBuffer + chunk;
    }

    /** `_voice_alert` at time `now`: speaks `message` and records the time
        when thirty seconds have passed since the last alert, else does nothing. */
    method VoiceAlert(now: real, message: string) returns (spoken: Announcement)
      requires Valid()
      modifies this
      ensures Valid()
      ensures spoken == AlertMade(old(State()), now, message)
      ensures State() == AfterAlert(old(State()), now)
    {
      spoken := Suppressed;
      if now - lastAlertTime >= AlertInterval {
        spoken := Announced(message);
        lastAlertTime := now;
      }
    }

    /** `update` at time `now`. `steering` and `drawn` are what the steering
        simulation drew for the level the previous tick left. */
    method Update(now: real, steering: real, drawn: DriverState)
      requires Valid()
      requires drawn in Labels(fatigueLevel)
      modifies this
      ensures Valid()
      ensures State() == Tick(old(State()), now, steering, drawn)
    {
      if now - lastUpdate < TickInterval {
        return;
      }
      lastUpdate := now;

      if |audioBuffer| >= WindowSamples {
        var energy := MeanSquare(audioBuffer);
        if energy > YawnEnergyThreshold {
          yawnCount := yawnCount + 1;
        }
        audioBuffer := [];
      }

      steeringValue := steering;
      driverState := drawn;
      torqueHistory := Push(torqueHistory, steeringValue);

      fatigueLevel := Classify(yawnCount);

      if ResetDue(now) {
        yawnCount := 0;
      }
    }

    /** The event loop of one frame of `DemoUI.run`, whose clock read `now`.
        Returns whether the run loop goes on. */
    method HandleEvents(now: real, events: seq<Event>) returns (running: bool)
      requires Valid()
      modifies this
      ensures Valid()
      ensures State() == ApplyEvents(old(State()), now, events)
      ensures running <==> !QuitRequested(events)
    {
      running := true;
      for i := 0 to |events|
        invariant State() == ApplyEvents(old(State()), now, events[..i])
        invariant running <==> !QuitRequested(events[..i])
      {
        match events[i] {
          case Quit =>
            running := false;
          case KeyDown(key) =>
            if key == Escape {
              running := false;
            } else if key == Space {
              yawnCount := 0;
              fatigueLevel := Normal;
              driverState := Focused;
            } else if key == H && now - lastYawnSimTime > YawnDebounce {
              yawnCount := yawnCount + 1;
              lastYawnSimTime := now;
            } else if key == Plus || key == Equals {
              simulationSpeed := SpeedUp(simulationSpeed);
            } else if key == Minus {
              simulationSpeed := SpeedDown(simulationSpeed);
            }
          case OtherEvent =>
        }
        assert events[..i + 1][..i] == events[..i];
      }
      assert events[..|events|] == events;
      EventsKeepValid(old(State()), now, events);
    }
  }
}

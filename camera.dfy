/** The capture on/off state of `CameraManager`: `startCapture` and
    `stopCapture` are guarded toggles of `isCapturing` that also start or
    stop the capture session. */
module Camera {

  /** The calls made on the capture session. */
  datatype SessionCall = StartRunning | StopRunning

  /** The two public operations of the manager. */
  datatype CaptureCall = StartCapture | StopCapture

  /** The capture flag together with the calls made on the session so far. */
  datatype CaptureState = CaptureState(isCapturing: bool, sessionCalls: seq<SessionCall>)

  /** A new manager is not capturing and has made no session call. */
  const Initial: CaptureState := CaptureState(false, [])

  /** One operation. The session is only called when the code is built for
      arm64 (`onArm64`); the guard turns a repeated start or stop into a
      no-op. */
  function Apply(s: CaptureState, call: CaptureCall, onArm64: bool): (r: CaptureState)
    ensures r.isCapturing <==> call == StartCapture
    ensures s.sessionCalls <= r.sessionCalls && |r.sessionCalls| <= |s.sessionCalls| + 1
    ensures (s.isCapturing <==> call == StartCapture) ==> r == s
  {
    match call
    case StartCapture =>
      if s.isCapturing then s
      else CaptureState(true, s.sessionCalls + (if onArm64 then [StartRunning] else []))
    case StopCapture =>
      if !s.isCapturing then s
      else CaptureState(false, s.sessionCalls + (if onArm64 then [StopRunning] else []))
  }

  /** A sequence of operations, applied in order: the log of session calls
      only grows, and the last operation decides whether the manager is
      capturing. */
  function Run(s: CaptureState, calls: seq<CaptureCall>, onArm64: bool): (r: CaptureState)
    ensures s.sessionCalls <= r.sessionCalls
    ensures calls != [] ==> (r.isCapturing <==> calls[|calls| - 1] == StartCapture)
    decreases |calls|
  {
    if calls == [] then s else Run(Apply(s, calls[0], onArm64), calls[1..], onArm64)
  }

  /** Session calls alternate, beginning with a start. */
  predicate Alternating(cs: seq<SessionCall>) {
    forall i | 0 <= i < |cs| :: cs[i] == if i % 2 == 0 then StartRunning else StopRunning
  }

  /** What every reachable state satisfies: the session calls alternate, the
      session was last started exactly when capturing, and no call is made
      off arm64. */
  predicate Consistent(s: CaptureState, onArm64: bool) {
    && Alternating(s.sessionCalls)
    && (onArm64 ==> (s.isCapturing <==> |s.sessionCalls| % 2 == 1))
    && (!onArm64 ==> s.sessionCalls == [])
  }

  lemma ApplyKeepsConsistent(s: CaptureState, call: CaptureCall, onArm64: bool)
    requires Consistent(s, onArm64)
    ensures Consistent(Apply(s, call, onArm64), onArm64)
  {
    var t := Apply(s, call, onArm64);
    if onArm64 && t != s {
      var n := |s.sessionCalls|;
      assert t.sessionCalls == s.sessionCalls + [t.sessionCalls[n]];
      forall i | 0 <= i < |t.sessionCalls|
        ensures t.sessionCalls[i] == if i % 2 == 0 then StartRunning else StopRunning
      {
        if i < n {
          assert t.sessionCalls[i] == s.sessionCalls[i];
        }
      }
    }
  }

  /** In any sequence of operations from a new manager, the session is
      started and stopped alternately, beginning with a start. */
  lemma {:induction false} RunKeepsConsistent(s: CaptureState, calls: seq<CaptureCall>, onArm64: bool)
    requires Consistent(s, onArm64)
    ensures Consistent(Run(s, calls, onArm64), onArm64)
    decreases |calls|
  {
    if calls != [] {
      ApplyKeepsConsistent(s, calls[0], onArm64);
      RunKeepsConsistent(Apply(s, calls[0], onArm64), calls[1..], onArm64);
    }
  }

  lemma RunFromInitialAlternates(calls: seq<CaptureCall>, onArm64: bool)
    ensures Alternating(Run(Initial, calls, onArm64).sessionCalls)
  {
    RunKeepsConsistent(Initial, calls, onArm64);
  }

  /** Any number of starts in a row has the effect of one. */
  lemma {:induction false} RepeatedStartsIdempotent(s: CaptureState, calls: seq<CaptureCall>, onArm64: bool)
    requires calls != [] && forall i | 0 <= i < |calls| :: calls[i] == StartCapture
    ensures Run(s, calls, onArm64) == Apply(s, StartCapture, onArm64)
    decreases |calls|
  {
    var t := Apply(s, StartCapture, onArm64);
    if |calls| > 1 {
      RepeatedStartsIdempotent(t, calls[1..], onArm64);
      assert Apply(t, StartCapture, onArm64) == t;
    }
  }

  /** Any number of stops in a row has the effect of one. */
  lemma {:induction false} RepeatedStopsIdempotent(s: CaptureState, calls: seq<CaptureCall>, onArm64: bool)
    requires calls != [] && forall i | 0 <= i < |calls| :: calls[i] == StopCapture
    ensures Run(s, calls, onArm64) == Apply(s, StopCapture, onArm64)
    decreases |calls|
  {
    var t := Apply(s, StopCapture, onArm64);
    if |calls| > 1 {
      RepeatedStopsIdempotent(t, calls[1..], onArm64);
      assert Apply(t, StopCapture, onArm64) == t;
    }
  }

  /** A start followed by a stop returns a stopped manager to not capturing,
      after exactly one start and one stop of the session on arm64. */
  lemma StartThenStop(s: CaptureState, onArm64: bool)
    requires !s.isCapturing
    ensures var t := Run(s, [StartCapture, StopCapture], onArm64);
            !t.isCapturing &&
            t.sessionCalls == s.sessionCalls + (if onArm64 then [StartRunning, StopRunning] else [])
  {
    assert [StartCapture, StopCapture][1..] == [StopCapture];
  }

  class CameraManager {
    var isCapturing: bool
    /** The calls made on the capture session so far. */
    ghost var sessionCalls: seq<SessionCall>
    /** Whether the code is built for arm64, the only build that calls the
        session. */
    const onArm64: bool

    ghost function State(): CaptureState
      reads this
    {
      CaptureState(isCapturing, sessionCalls)
    }

    ghost predicate Valid()
      reads this
    {
      Consistent(State(), onArm64)
    }

    constructor (onArm64: bool)
      ensures Valid() && State() == Initial && this.onArm64 == onArm64
    {
      isCapturing := false;
      sessionCalls := [];
      this.onArm64 := onArm64;
    }

    /** Starts capturing unless already capturing. */
    method StartCapture()
      requires Valid()
      modifies this
      ensures Valid() && State() == Apply(old(State()), CaptureCall.StartCapture, onArm64)
      ensures old(isCapturing) ==> isCapturing && sessionCalls == old(sessionCalls)
      ensures !old(isCapturing) ==>
        isCapturing && sessionCalls == old(sessionCalls) + (if onArm64 then [StartRunning] else [])
    {
      if isCapturing {
        return;
      }
      isCapturing := true;
      if onArm64 {
        sessionCalls := sessionCalls + [StartRunning];
      }
      ApplyKeepsConsistent(old(State()), CaptureCall.StartCapture, onArm64);
    }

    /** Stops capturing unless not capturing. */
    method StopCapture()
      requires Valid()
      modifies this
      ensures Valid() && State() == Apply(old(State()), CaptureCall.StopCapture, onArm64)
      ensures !old(isCapturing) ==> !isCapturing && sessionCalls == old(sessionCalls)
      ensures old(isCapturing) ==>
        !isCapturing && sessionCalls == old(sessionCalls) + (if onArm64 then [StopRunning] else [])
    {
      if !isCapturing {
        return;
      }
      isCapturing := false;
      if onArm64 {
        sessionCalls := sessionCalls + [StopRunning];
      }
      ApplyKeepsConsistent(old(State()), CaptureCall.StopCapture, onArm64);
    }
  }
}

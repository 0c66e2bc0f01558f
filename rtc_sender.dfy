/**
 * The WebRTC sender: the MQTT topics it signals on, the camera track's
 * bounded polling for a frame, and the life of a peer connection between
 * `open`, the `_run` task and `close`. The network, MQTT and aiortc are
 * reduced to the outcomes each step observes.
 */
module RtcSender {
  import opened Wrappers
  import opened PyJson
  import opened Frames

  // ---------------------------------------------------------------------------
  // Topics

  const DefaultPrefix: string := "user/aiwang23"

  function OfferTopic(prefix: string): string { prefix + "/offer" }

  function AnswerTopic(prefix: string): string { prefix + "/answer" }

  /** The offer is never published where the answer is awaited, whatever the two prefixes. */
  lemma OfferIsNotAnswer(p: string, q: string)
    ensures OfferTopic(p) != AnswerTopic(q)
  {
    var o, a := OfferTopic(p), AnswerTopic(q);
    assert o[|o| - 3] == 'f';
    assert a[|a| - 3] == 'w';
  }

  /** Different prefixes give different topics, so two senders with different prefixes never share a channel. */
  lemma TopicsDeterminePrefix(p: string, q: string)
    ensures OfferTopic(p) == OfferTopic(q) ==> p == q
    ensures AnswerTopic(p) == AnswerTopic(q) ==> p == q
  {
    if OfferTopic(p) == OfferTopic(q) {
      assert |p| == |q|;
      assert p == OfferTopic(p)[..|p|];
      assert q == OfferTopic(q)[..|q|];
    }
    if AnswerTopic(p) == AnswerTopic(q) {
      assert |p| == |q|;
      assert p == AnswerTopic(p)[..|p|];
      assert q == AnswerTopic(q)[..|q|];
    }
  }

  lemma DefaultTopics()
    ensures OfferTopic(DefaultPrefix) == "user/aiwang23/offer"
    ensures AnswerTopic(DefaultPrefix) == "user/aiwang23/answer"
  {
  }

  // ---------------------------------------------------------------------------
  // CameraTrack.recv

  /**
   * `int(frame_interval * 1000 / 5)` with `frame_interval = 1 / fps`, in
   * exact arithmetic: the number of 5 ms polls that fit in one frame interval.
   */
  function PollBudget(fps: nat): (n: nat)
    requires fps > 0
    ensures n * 5 * fps <= 1000 < (n + 1) * 5 * fps
  {
    200 / fps
  }

  /** Whether one of the first `budget` reads yields a frame. */
  predicate SomeFrameWithin(polls: seq<Option<Image>>, budget: nat)
    requires budget <= |polls|
  {
    exists i :: 0 <= i < budget && polls[i].Some?
  }

  /**
   * `recv`: calls the read function at most `budget` times, stopping at the
   * first frame; when none comes, a black 480x640 frame is sent instead.
   * `polls[i]` is what the `i`-th call returns; `calls` counts the calls made.
   */
  method Recv(budget: nat, polls: seq<Option<Image>>) returns (frame: Image, calls: nat)
    requires budget <= |polls|
    ensures calls <= budget
    ensures forall i :: 0 <= i < calls - 1 ==> polls[i].None?
    ensures SomeFrameWithin(polls, budget) ==> 1 <= calls && polls[calls - 1] == Some(frame)
    ensures !SomeFrameWithin(polls, budget) ==> calls == budget && frame == BlankFrame
  {
    calls := 0;
    while calls < budget
      invariant calls <= budget
      invariant forall i :: 0 <= i < calls ==> polls[i].None?
    {
      var r := polls[calls];
      calls := calls + 1;
      if r.Some? {
        return r.value, calls;
      }
    }
    frame := BlankFrame;
  }

  // ---------------------------------------------------------------------------
  // The sender and its run task

  /** An aiortc `RTCPeerConnection`, known by identity. */
  class PeerConnection {
    constructor ()
    {
    }
  }

  /** `pc.connectionState`. */
  datatype ConnState = New | Connecting | Connected | Disconnected | Failed | Closed

  /** The keep-alive loop goes on while the sender runs and the connection is neither closed nor failed. */
  predicate KeepAlive(running: bool, state: ConnState)
  {
    running && state != Closed && state != Failed
  }

  /** What the wait for an answer on the answer topic ended with. */
  datatype AnswerWait =
    | TimedOut                                      // nothing within 25 seconds
    | WaitFailed                                    // MQTT or TLS raised
    | Received(payload: string, parsed: Option<Json>)   // `parsed` is `None` when `json.loads` raises

  /** An answer the sender goes on with: non-empty, valid JSON, a dict with "sdp" and "type". */
  function AnswerFields(wait: AnswerWait): (r: Option<map<string, Json>>)
    ensures r.Some? <==>
      wait.Received? && wait.payload != [] && wait.parsed.Some? && wait.parsed.value.JObj?
      && "sdp" in wait.parsed.value.fields && "type" in wait.parsed.value.fields
    ensures r.Some? ==> r.value == wait.parsed.value.fields
  {
    if !wait.Received? || wait.payload == [] then None
    else match wait.parsed
      case Some(JObj(fields)) => if "sdp" in fields && "type" in fields then Some(fields) else None
      case _ => None
  }

  /** The close log after closing the held connection, if there is one. */
  function AfterClose(log: seq<PeerConnection>, held: Option<PeerConnection>): seq<PeerConnection>
  {
    if held.Some? then log + [held.value] else log
  }

  class RTCSender {
    var pc: Option<PeerConnection>
    var running: bool
    const topicOffer: string
    const topicAnswer: string
    const mqttHostname: string
    const mqttPort: int
    /** Every `pc.close()` made or scheduled, oldest first. */
    ghost var closes: seq<PeerConnection>

    /** No connection is closed twice, and the one held has not been closed. */
    ghost predicate Valid()
      reads this
    {
      && (forall i, j :: 0 <= i < j < |closes| ==> closes[i] != closes[j])
      && (pc.Some? ==> pc.value !in closes)
    }

    constructor (prefix: string)
      ensures Valid()
      ensures pc == None && !running && closes == []
      ensures topicOffer == OfferTopic(prefix) && topicAnswer == AnswerTopic(prefix)
      ensures mqttHostname == "broker.emqx.io" && mqttPort == 8883
    {
      pc := None;
      topicOffer := prefix + "/offer";
      topicAnswer := prefix + "/answer";
      mqttHostname := "broker.emqx.io";
      mqttPort := 8883;
      running := false;
      closes := [];
    }

    /** `open`: only schedules the `_run` task; nothing about the sender changes yet. */
    method Open() returns (task: RunTask)
      ensures fresh(task) && task.sender == this && task.phase == Scheduled && task.conn == None
    {
      task := new RunTask(this);
    }

    /** `close`: stops the keep-alive loop, and closes and drops the connection if one is held. */
    method Close()
      requires Valid()
      modifies this`running, this`pc, this`closes
      ensures Valid()
      ensures !running && pc == None
      ensures closes == AfterClose(old(closes), old(pc))
    {
      running := false;
      if pc.Some? {
        closes := closes + [pc.value];
        pc := None;
      }
    }

    /** The `finally` block of `_run`: the same as `close`, on whatever connection the sender holds by then. */
    method Teardown()
      requires Valid()
      modifies this`running, this`pc, this`closes
      ensures Valid()
      ensures !running && pc == None
      ensures closes == AfterClose(old(closes), old(pc))
    {
      Close();
    }
  }

  /** Where the `_run` task is. */
  datatype Phase = Scheduled | Negotiating | AwaitingAnswer | KeepingAlive | Finished

  /** One `_run` task, stepped at the points where it awaits. */
  class RunTask {
    const sender: RTCSender
    var phase: Phase
    /** The local `pc` of `_run`. */
    var conn: Option<PeerConnection>
    /** Whether the answer was set as the remote description. */
    var remoteSet: bool

    constructor (sender: RTCSender)
      ensures this.sender == sender && phase == Scheduled && conn == None && !remoteSet
    {
      this.sender := sender;
      phase := Scheduled;
      conn := None;
      remoteSet := false;
    }

    /**
     * The task's first step: `_running` is set, whatever a `close()` made
     * since `open` set it to, and a new connection is created and held.
     */
    method Start()
      requires phase == Scheduled && sender.Valid()
      modifies this`phase, this`conn, sender`running, sender`pc
      ensures sender.Valid()
      ensures sender.running
      ensures conn.Some? && fresh(conn.value) && sender.pc == conn
      ensures phase == Negotiating
    {
      sender.running := true;
      var c := new PeerConnection();
      sender.pc := Some(c);
      conn := Some(c);
      phase := Negotiating;
    }

    /** Adding the track and data channel, creating the offer and publishing it on the offer topic; `ok` is false when one of them raised. */
    method Negotiate(ok: bool)
      requires phase == Negotiating && sender.Valid()
      modifies this`phase, sender`running, sender`pc, sender`closes
      ensures sender.Valid()
      ensures ok ==> (phase == AwaitingAnswer && sender.running == old(sender.running)
        && sender.pc == old(sender.pc) && sender.closes == old(sender.closes))
      ensures !ok ==> (phase == Finished && !sender.running && sender.pc == None
        && sender.closes == AfterClose(old(sender.closes), old(sender.pc)))
    {
      if !ok {
        sender.Teardown();
        phase := Finished;
        return;
      }
      phase := AwaitingAnswer;
    }

    /**
     * The answer: without one in time, with an empty or malformed one, or
     * when setting it raises (`remoteOk` false), the task tears down
     * without a remote description; otherwise it keeps the connection alive.
     */
    method ReceiveAnswer(wait: AnswerWait, remoteOk: bool)
      requires phase == AwaitingAnswer && sender.Valid()
      modifies this`phase, this`remoteSet, sender`running, sender`pc, sender`closes
      ensures sender.Valid()
      ensures remoteSet <==> AnswerFields(wait).Some? && remoteOk
      ensures remoteSet ==> (phase == KeepingAlive && sender.running == old(sender.running)
        && sender.pc == old(sender.pc) && sender.closes == old(sender.closes))
      ensures !remoteSet ==> (phase == Finished && !sender.running && sender.pc == None
        && sender.closes == AfterClose(old(sender.closes), old(sender.pc)))
    {
      if AnswerFields(wait).None? || !remoteOk {
        remoteSet := false;
        sender.Teardown();
        phase := Finished;
        return;
      }
      remoteSet := true;
      phase := KeepingAlive;
    }

    /** One turn of the keep-alive loop, given the connection's state at that moment. */
    method Tick(state: ConnState)
      requires phase == KeepingAlive && sender.Valid()
      modifies this`phase, sender`running, sender`pc, sender`closes
      ensures sender.Valid()
      ensures KeepAlive(old(sender.running), state) ==> (phase == KeepingAlive && sender.running
        && sender.pc == old(sender.pc) && sender.closes == old(sender.closes))
      ensures !KeepAlive(old(sender.running), state) ==> (phase == Finished && !sender.running && sender.pc == None
        && sender.closes == AfterClose(old(sender.closes), old(sender.pc)))
    {
      if !(sender.running && state != Closed && state != Failed) {
        sender.Teardown();
        phase := Finished;
      }
    }
  }
}

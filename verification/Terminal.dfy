/**
 The byte pump of a terminal session: the UI thread and the worker share two bounded queues under one lock. A step is
 one critical section, one call to the connection or one message, so every interleaving of the two threads is a list of steps.
 */
module Terminal {
  import opened Base

  const CAPACITY := 65536
  const READ_MAX := 8192

  /** Where the worker is in one round of the pump. */
  datatype Worker =
    | Waiting
    | Taken(room: nat)                 // input taken, free output space noted
    | Sent(room: nat)                  // pending bytes offered to the connection
    | Holding(room: nat, data: Bytes)  // bytes read, not yet queued
    | Announcing                       // queued, and a drain still to be posted
    | Ended

  datatype Ui = Free | Draining

  datatype Pump = Pump(
    input: Bytes, output: Bytes, posted: bool,
    pending: Bytes, offset: nat,
    worker: Worker, ui: Ui, messages: nat,
    accepted: Bytes, written: Bytes, received: Bytes, drained: Bytes)

  function Idle(): Pump {
    Pump([], [], false, [], 0, Waiting, Free, 0, [], [], [], [])
  }

  datatype Event =
    | Send(data: Bytes)    // UI: the user types or pastes
    | Dequeue              // UI: a drain message is taken off the queue
    | Drain                // UI: the drain itself
    | Take                 // worker: the first critical section of a round
    | Write(n: nat)        // worker: the connection accepts n bytes
    | Read(data: Bytes)    // worker: the connection delivers bytes
    | Append               // worker: the second critical section
    | Post                 // worker: the drain message is posted
    | Fail                 // worker: a call failed or the remote side ended; the end notice is posted

  predicate Enabled(s: Pump, e: Event) {
    match e
    case Send(data) => s.ui.Free? && |data| <= CAPACITY - |s.input|
    case Dequeue => s.ui.Free? && s.messages > 0
    case Drain => s.ui.Draining?
    case Take => s.worker.Waiting?
    case Write(n) => s.worker.Taken? && s.offset + n <= |s.pending|
    case Read(data) => s.worker.Sent? && |data| <= Min(s.worker.room, READ_MAX)
    case Append => s.worker.Holding?
    case Post => s.worker.Announcing?
    case Fail => s.worker.Taken? || s.worker.Sent? || s.worker.Waiting?
  }

  function Step(s: Pump, e: Event): Pump {
    if !Enabled(s, e) then s
    else
      match e
      case Send(data) => s.(input := s.input + data, accepted := s.accepted + data)
      case Dequeue => s.(ui := Draining, messages := s.messages - 1)
      case Drain => s.(ui := Free, drained := s.drained + s.output, output := [], posted := false)
      case Take =>
        if s.offset == |s.pending| then s.(pending := s.input, offset := 0, input := [], worker := Taken(CAPACITY - Min(|s.output|, CAPACITY)))
        else s.(worker := Taken(CAPACITY - Min(|s.output|, CAPACITY)))
      case Write(n) =>
        s.(written := s.written + s.pending[s.offset..s.offset + n], offset := s.offset + n, worker := Sent(s.worker.room))
      case Read(data) =>
        s.(received := s.received + data, worker := if data == [] then Waiting else Holding(s.worker.room, data))
      case Append =>
        s.(output := s.output + s.worker.data, posted := true, worker := if s.posted then Waiting else Announcing)
      case Post => s.(messages := s.messages + 1, worker := Waiting)
      case Fail => s.(messages := s.messages + 1, worker := Ended)
  }

  function Run(s: Pump, events: seq<Event>): Pump
    decreases |events|
  {
    if events == [] then s else Run(Step(s, events[0]), events[1..])
  }

  // ---------------------------------------------------------------- the invariant

  function Room(w: Worker): nat {
    match w
    case Taken(room) => room
    case Sent(room) => room
    case Holding(room, _) => room
    case _ => 0
  }

  function InHand(w: Worker): Bytes {
    if w.Holding? then w.data else []
  }

  /** Nothing accepted is lost, doubled or reordered on the way out. */
  predicate OutOrder(s: Pump) {
    s.offset <= |s.pending| && s.accepted == s.written + s.pending[s.offset..] + s.input
  }

  /** Nor is anything received on the way in. */
  predicate InOrder(s: Pump) {
    s.received == s.drained + s.output + InHand(s.worker)
  }

  /** The queues fit their buffers, and the space the worker has noted stays free until it uses it. */
  predicate Fits(s: Pump) {
    && |s.input| <= CAPACITY && |s.pending| <= CAPACITY && |s.output| + Room(s.worker) <= CAPACITY
    && |InHand(s.worker)| <= Room(s.worker)
  }

  /** Queued output always has a drain coming. */
  predicate DrainComing(s: Pump) {
    && (s.output != [] ==> s.posted)
    && (s.posted ==> s.messages > 0 || s.worker.Announcing? || s.ui.Draining?)
    && (s.worker.Announcing? ==> s.posted || s.output == [])
  }

  predicate Inv(s: Pump) {
    OutOrder(s) && InOrder(s) && Fits(s) && DrainComing(s)
  }

  lemma OutStep(s: Pump, e: Event)
    requires OutOrder(s)
    ensures OutOrder(Step(s, e))
  {
    match e
    case Write(n) =>
      if Enabled(s, e) {
        assert s.pending[s.offset..s.offset + n] + s.pending[s.offset + n..] == s.pending[s.offset..];
        Associate(s.written, s.pending[s.offset..s.offset + n], s.pending[s.offset + n..]);
      }
    case Send(data) => Associate(s.written + s.pending[s.offset..], s.input, data);
    case _ =>
  }

  lemma InStep(s: Pump, e: Event)
    requires InOrder(s)
    ensures InOrder(Step(s, e))
  {
    match e
    case Drain => Associate(s.drained, s.output, InHand(s.worker));
    case Append => if s.worker.Holding? { Associate(s.drained, s.output, s.worker.data); }
    case _ =>
  }

  lemma FitStep(s: Pump, e: Event)
    requires Fits(s) && OutOrder(s)
    ensures Fits(Step(s, e))
  {
  }

  lemma DrainStep(s: Pump, e: Event)
    requires DrainComing(s)
    ensures DrainComing(Step(s, e))
  {
  }

  lemma InvStep(s: Pump, e: Event)
    requires Inv(s)
    ensures Inv(Step(s, e))
  {
    hide Step, OutOrder, InOrder, Fits, DrainComing;
    OutStep(s, e);
    InStep(s, e);
    FitStep(s, e);
    DrainStep(s, e);
  }

  /** Every interleaving keeps both orders, both bounds and the promise of a drain. */
  lemma {:induction false} RunInv(s: Pump, events: seq<Event>)
    requires Inv(s)
    ensures Inv(Run(s, events))
    decreases |events|
  {
    hide Inv, Step;
    if events != [] {
      InvStep(s, events[0]);
      RunInv(Step(s, events[0]), events[1..]);
    }
  }

  /** What reached the connection is a prefix of what was accepted, and what reached the screen a prefix of what was
      received; once both threads are at rest with no message left, everything received is on the screen. */
  lemma InterleavingsKeepOrder(events: seq<Event>)
    ensures var s := Run(Idle(), events);
      && s.written <= s.accepted && s.drained <= s.received
      && |s.input| <= CAPACITY && |s.output| <= CAPACITY
      && (s.output != [] ==> s.messages > 0 || s.worker.Announcing? || s.ui.Draining?)
      && ((s.worker.Waiting? || s.worker.Ended?) && s.ui.Free? && s.messages == 0 ==> s.drained == s.received)
      && (s.input == [] && s.offset == |s.pending| ==> s.written == s.accepted)
  {
    RunInv(Idle(), events);
    var s := Run(Idle(), events);
    hide Run;
    assert s.accepted == s.written + (s.pending[s.offset..] + s.input);
    assert s.received == s.drained + (s.output + InHand(s.worker));
  }

  /** The steps of one undisturbed round; steps with nothing to do change nothing. */
  function Round(s: Pump, n: nat, data: Bytes): Pump {
    Step(Step(Step(Step(Step(s, Take), Write(n)), Read(data)), Append), Post)
  }

  /** As many pending bytes as the connection takes. */
  function Ready(s: Pump, takes: nat): nat {
    if s.offset <= |s.pending| then Min(takes, |s.pending| - s.offset) else 0
  }

  /** As many bytes as were delivered, fit the space noted and one read. */
  function Delivered(s: Pump, delivers: Bytes): Bytes {
    delivers[..Min(Min(Room(s.worker), READ_MAX), |delivers|)]
  }

  // ---------------------------------------------------------------- progress

  predicate Bounded(s: Pump) {
    s.offset <= |s.pending| && |s.output| <= CAPACITY
  }

  lemma BoundedInv(s: Pump)
    requires Inv(s)
    ensures Bounded(s)
  {
  }

  /** What one undisturbed round brings about, whatever its steps are: pending bytes go first, and queued input is taken
      when nothing is pending; what the connection delivers is queued as far as it fits, and announced. */
  ghost predicate Pumped(s: Pump, t: Pump, takes: nat, delivers: Bytes)
    requires Bounded(s)
  {
    var source := if s.offset == |s.pending| then s.input else s.pending[s.offset..];
    var n := Min(takes, |source|);
    var data := delivers[..Min(Min(CAPACITY - |s.output|, READ_MAX), |delivers|)];
    && t.written == s.written + source[..n] && t.accepted == s.accepted
    && t.offset <= |t.pending| && t.pending[t.offset..] == source[n..]
    && t.input == (if s.offset == |s.pending| then [] else s.input)
    && t.received == s.received + data && t.output == s.output + data && t.drained == s.drained
    && (data != [] ==> t.posted && (s.posted || t.messages > 0))
  }

  /** Two rounds in which the connection takes all it is offered send everything that was accepted. */
  lemma TwoRounds(s: Pump, t: Pump, u: Pump, first: nat, second: nat, a: Bytes, b: Bytes)
    requires Inv(s) && Inv(t) && Inv(u) && Pumped(s, t, first, a) && Pumped(t, u, second, b) && first >= CAPACITY && second >= CAPACITY
    ensures u.written == u.accepted == s.accepted
  {
    assert t.pending[t.offset..] == [] && t.input[..|t.input|] == t.input;
    assert u.pending[u.offset..] == [] && u.input == [];
    hide Fits, InOrder, DrainComing;
    assert u.accepted == u.written + [] + [];
  }

  /** The steps of a round bring that about. */
  lemma RoundPumps(s: Pump, takes: nat, delivers: Bytes)
    requires Inv(s) && s.worker.Waiting?
    ensures var t := Step(s, Take); Pumped(s, Round(s, Ready(t, takes), Delivered(t, delivers)), takes, delivers)
  {
    var t := Step(s, Take);
    var source := if s.offset == |s.pending| then s.input else s.pending[s.offset..];
    var n := Ready(t, takes);
    assert t.pending[t.offset..] == source;
    assert t.pending[t.offset..t.offset + n] == source[..n];
    var w := Step(t, Write(n));
    assert w.pending[w.offset..] == source[n..];
    OutputRound(w, Delivered(t, delivers));
  }

  lemma PumpedFacts(s: Pump, t: Pump, takes: nat, delivers: Bytes)
    requires Bounded(s) && Pumped(s, t, takes, delivers)
    ensures t.received == s.received + delivers[..Min(Min(CAPACITY - |s.output|, READ_MAX), |delivers|)]
    ensures s.offset == |s.pending| && takes >= |s.input| ==> t.written == s.written + s.input && t.input == []
  {
    assert s.input[..|s.input|] == s.input;
  }

  lemma OutputRound(w: Pump, data: Bytes)
    requires w.worker.Sent? && |data| <= Min(w.worker.room, READ_MAX)
    ensures var t := Step(Step(Step(w, Read(data)), Append), Post);
      && t.received == w.received + data && t.output == w.output + data && t.drained == w.drained
      && t.written == w.written && t.accepted == w.accepted && t.pending == w.pending && t.offset == w.offset && t.input == w.input
      && (data != [] ==> t.posted && (w.posted || t.messages > 0))
  {
  }

  lemma RoundIs(s: Pump, n: nat, data: Bytes)
    ensures Round(s, n, data) == Step(Step(Step(Step(Step(s, Take), Write(n)), Read(data)), Append), Post)
  {
    hide Step;
  }

  lemma Taking(s: Pump)
    requires Inv(s)
    ensures s.offset <= |s.pending| && |s.output| + Room(s.worker) <= CAPACITY
  {
  }

  // ---------------------------------------------------------------- the shared state as an object

  /** Copies bytes into a buffer. */
  method CopyInto(buffer: array<Byte>, at: nat, data: Bytes)
    requires at + |data| <= buffer.Length
    modifies buffer
    ensures buffer[..at + |data|] == old(buffer[..at]) + data
  {
    for i := 0 to |data|
      invariant buffer[..at + i] == old(buffer[..at]) + data[..i]
    {
      buffer[at + i] := data[i];
      assert buffer[..at + i + 1] == buffer[..at + i] + [data[i]];
      assert data[..i + 1] == data[..i] + [data[i]];
    }
    assert data[..|data|] == data;
  }

  class RemoteView {
    const terminalInput: array<Byte>
    const terminalOutput: array<Byte>
    const buffer: array<Byte>
    var inputLength: nat
    var outputLength: nat
    var outputPosted: bool
    var length: nat
    var offset: nat
    var worker: Worker
    var ui: Ui
    var messages: nat
    ghost var accepted: Bytes
    ghost var written: Bytes
    ghost var received: Bytes
    ghost var drained: Bytes

    ghost predicate Shaped()
      reads this
    {
      && terminalInput.Length == CAPACITY && terminalOutput.Length == CAPACITY && buffer.Length == CAPACITY
      && terminalInput != terminalOutput && terminalInput != buffer && terminalOutput != buffer
      && inputLength <= CAPACITY && outputLength <= CAPACITY && length <= CAPACITY
    }

    ghost function State(): Pump
      requires Shaped()
      reads this, terminalInput, terminalOutput, buffer
    {
      Pump(terminalInput[..inputLength], terminalOutput[..outputLength], outputPosted, buffer[..length], offset,
           worker, ui, messages, accepted, written, received, drained)
    }

    ghost predicate Valid()
      reads this, terminalInput, terminalOutput, buffer
    {
      Shaped() && Inv(State())
    }

    constructor ()
      ensures Valid() && State() == Idle() && fresh(terminalInput) && fresh(terminalOutput) && fresh(buffer)
    {
      terminalInput, terminalOutput, buffer := new Byte[CAPACITY], new Byte[CAPACITY], new Byte[CAPACITY];
      inputLength, outputLength, outputPosted, length, offset := 0, 0, false, 0, 0;
      worker, ui, messages := Waiting, Free, 0;
      accepted, written, received, drained := [], [], [], [];
    }

    /** Queues input if all of it fits. */
    method TerminalSend(data: Bytes) returns (ok: bool)
      requires Valid() && ui.Free?
      modifies this, terminalInput
      ensures Valid() && State() == Step(old(State()), Send(data))
      ensures ok <==> |data| <= CAPACITY - old(inputLength)
      ensures terminalInput[..inputLength] == old(terminalInput[..inputLength]) + (if ok then data else [])
    {
      InvStep(State(), Send(data));
      hide Inv;
      ok := |data| <= CAPACITY - inputLength;
      if ok {
        CopyInto(terminalInput, inputLength, data);
        inputLength := inputLength + |data|;
        accepted := accepted + data;
      }
    }

    method TakeMessage()
      requires Valid() && ui.Free? && messages > 0
      modifies this
      ensures Valid() && State() == Step(old(State()), Dequeue)
    {
      InvStep(State(), Dequeue);
      hide Inv;
      messages, ui := messages - 1, Draining;
    }

    /** Moves all queued output to the screen. */
    method TerminalDrain() returns (data: Bytes)
      requires Valid() && ui.Draining?
      modifies this
      ensures Valid() && State() == Step(old(State()), Drain)
      ensures data == old(State()).output && drained == old(drained) + data && outputLength == 0 && !outputPosted
    {
      InvStep(State(), Drain);
      hide Inv;
      data := terminalOutput[..outputLength];
      outputLength, outputPosted, ui := 0, false, Free;
      drained := drained + data;
    }

    /** The first critical section of a round: takes the input if the last of it is gone, and notes the free output space. */
    method TakeInput()
      requires Valid() && worker.Waiting?
      modifies this, buffer
      ensures Valid() && State() == Step(old(State()), Take)
      ensures if old(offset == length)
              then buffer[..length] == old(terminalInput[..inputLength]) && inputLength == 0 && offset == 0
              else buffer[..length] == old(buffer[..length]) && offset == old(offset) && inputLength == old(inputLength)
      ensures worker == Taken(CAPACITY - outputLength) && outputLength == old(outputLength)
    {
      InvStep(State(), Take);
      hide Inv;
      if offset == length {
        CopyInto(buffer, 0, terminalInput[..inputLength]);
        assert buffer[..inputLength] == terminalInput[..inputLength];
        offset, length, inputLength := 0, inputLength, 0;
      }
      worker := Taken(CAPACITY - outputLength);
    }

    /** The connection takes some of the pending bytes. */
    method WritePending(n: nat)
      requires Valid() && worker.Taken? && offset + n <= length
      modifies this
      ensures Valid() && State() == Step(old(State()), Write(n))
      ensures written == old(written) + old(buffer[..length])[old(offset)..old(offset) + n] && offset == old(offset) + n && length == old(length)
      ensures worker == Sent(old(worker).room)
    {
      InvStep(State(), Write(n));
      hide Inv;
      written := written + buffer[..length][offset..offset + n];
      offset, worker := offset + n, Sent(worker.room);
    }

    /** The connection delivers no more than there is room for. */
    method ReadRemote(data: Bytes)
      requires Valid() && worker.Sent? && |data| <= Min(worker.room, READ_MAX)
      modifies this
      ensures Valid() && State() == Step(old(State()), Read(data))
    {
      InvStep(State(), Read(data));
      hide Inv;
      received := received + data;
      worker := if data == [] then Waiting else Holding(worker.room, data);
    }

    /** The second critical section: queues what was read, which always fits, and decides whether a drain must be posted. */
    method AppendOutput()
      requires Valid() && worker.Holding?
      modifies this, terminalOutput
      ensures Valid() && State() == Step(old(State()), Append)
      ensures terminalOutput[..outputLength] == old(terminalOutput[..outputLength]) + old(worker.data)
      ensures outputPosted && worker == if old(outputPosted) then Waiting else Announcing
    {
      InvStep(State(), Append);
      assert outputLength + |worker.data| <= CAPACITY;
      hide Inv;
      CopyInto(terminalOutput, outputLength, worker.data);
      outputLength := outputLength + |worker.data|;
      worker, outputPosted := if outputPosted then Waiting else Announcing, true;
    }

    method PostDrain()
      requires Valid() && worker.Announcing?
      modifies this
      ensures Valid() && State() == Step(old(State()), Post)
      ensures messages == old(messages) + 1 && worker == Waiting
    {
      InvStep(State(), Post);
      hide Inv;
      messages, worker := messages + 1, Waiting;
    }

    /** The second half of a round: reads, queues what came and announces it if nobody has yet. */
    method PumpOutput(data: Bytes)
      requires Valid() && worker.Sent? && |data| <= Min(worker.room, READ_MAX)
      modifies this, terminalOutput
      ensures Valid() && worker.Waiting?
      ensures State() == Step(Step(Step(old(State()), Read(data)), Append), Post)
    {
      hide Inv;
      ReadRemote(data);
      if worker.Holding? {
        AppendOutput();
        if worker.Announcing? {
          PostDrain();
        }
      }
    }

    /** One round without failures: whatever the connection is ready to take and deliver, it is the steps of a round in order. */
    method TerminalPump(takes: nat, delivers: Bytes) returns (activity: bool)
      requires Valid() && worker.Waiting?
      modifies this, buffer, terminalOutput
      ensures Valid() && worker.Waiting?
      ensures var t := Step(old(State()), Take); var n := Ready(t, takes); var data := Delivered(t, delivers);
        State() == Round(old(State()), n, data) && (activity <==> n > 0 || data != [])
      ensures old(Bounded(State())) && Pumped(old(State()), State(), takes, delivers)
      ensures old(offset == length) && takes >= old(inputLength) ==>
                written == old(written) + old(terminalInput[..inputLength]) && inputLength == 0
      ensures received == old(received) + delivers[..Min(Min(CAPACITY - old(outputLength), READ_MAX), |delivers|)]
    {
      hide Inv, Pumped, Step, Round, Bounded;
      ghost var s := State();
      BoundedInv(s);
      RoundPumps(s, takes, delivers);
      PumpedFacts(s, Round(s, Ready(Step(s, Take), takes), Delivered(Step(s, Take), delivers)), takes, delivers);
      TakeInput();
      Taking(State());
      var n := Min(takes, length - offset);
      RoundIs(s, n, Delivered(State(), delivers));
      WritePending(n);
      var data := delivers[..Min(Min(worker.room, READ_MAX), |delivers|)];
      PumpOutput(data);
      activity := n > 0 || data != [];
    }

    /** The session ends; the notice of its end drains what is left. */
    method End()
      requires Valid() && (worker.Taken? || worker.Sent? || worker.Waiting?)
      modifies this
      ensures Valid() && State() == Step(old(State()), Fail)
    {
      InvStep(State(), Fail);
      hide Inv;
      messages, worker := messages + 1, Ended;
    }
  }
}

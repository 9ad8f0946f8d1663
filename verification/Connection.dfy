/**
 TcpConnection (tcp_connection.cpp) on its IO loop: the output stream against a kernel that may accept
 any prefix, and the registration of the channel.  The result of each system call is a parameter, so a
 contract holds for every choice of the kernel.  User callbacks are not part of this model.
 */
module Connection {

  import opened ByteBuffer
  import opened Epoll

  datatype ConnState = Disconnected | Connecting | Connected | Disconnecting

  datatype Errno = EWOULDBLOCK | EPIPE | ECONNRESET | OtherErrno

  datatype WriteResult = Wrote(n: nat) | WriteError(errno: Errno)

  /** Connection callbacks that reported UP or DOWN, and the end of connectDestroyed(). */
  datatype Event = Up | Down | Destroyed

  /** What a server sees of a connection on its loop; `watched` if the kernel may report events for it. */
  datatype Standing = Standing(state: ConnState, watched: bool, log: seq<Event>)

  function AfterEstablished(c: Standing): Standing
  {
    Standing(Connected, true, c.log + [Up])
  }

  function AfterClosed(c: Standing): Standing
  {
    Standing(Disconnected, false, c.log + [Down])
  }

  function AfterDestroyed(c: Standing): Standing
  {
    if c.state == Connected then Standing(Disconnected, false, c.log + [Down] + [Destroyed])
    else Standing(c.state, false, c.log + [Destroyed])
  }

  datatype ReadAction = Message | Closed | Error

  // ----- the output stream as a value -----

  datatype Stream = Stream(accepted: seq<Byte>, waiting: seq<Byte>)

  datatype StreamOp = SendOp(data: seq<Byte>, k: WriteResult) | FlushOp(k: WriteResult)

  /** send() and handleWrite() as the kernel and the output buffer see them. */
  function After(s: Stream, op: StreamOp): Stream
  {
    match op
    case SendOp(data, k) =>
      if s.waiting != [] then s.(waiting := s.waiting + data)
      else
        (match k
         case Wrote(n) =>
           if n <= |data| then Stream(s.accepted + data[..n], data[n..]) else s
         case WriteError(errno) =>
           if errno == EPIPE || errno == ECONNRESET then s else s.(waiting := data))
    case FlushOp(k) =>
      if k.Wrote? && k.n <= |s.waiting| then Stream(s.accepted + s.waiting[..k.n], s.waiting[k.n..]) else s
  }

  predicate IsStreamRun(ops: seq<StreamOp>, ss: seq<Stream>)
  {
    && |ss| == |ops| + 1
    && ss[0] == Stream([], [])
    && (forall i :: 0 <= i < |ops| ==> ss[i + 1] == After(ss[i], ops[i]))
    && (forall i :: 0 <= i < |ops| && ops[i].SendOp? && ops[i].k.Wrote? ==> ops[i].k.n <= |ops[i].data|)
  }

  /** The message was written at once, and the answer was EPIPE or ECONNRESET. */
  predicate GivenUp(op: StreamOp, before: Stream)
  {
    op.SendOp? && before.waiting == [] && op.k in {WriteError(EPIPE), WriteError(ECONNRESET)}
  }

  /** The messages of the first i operations, but for those given up. */
  function Messages(ops: seq<StreamOp>, ss: seq<Stream>, i: nat): seq<Byte>
    requires i <= |ops| && |ss| == |ops| + 1
  {
    if i == 0 then []
    else
      var op := ops[i - 1];
      Messages(ops, ss, i - 1) + if op.SendOp? && !GivenUp(op, ss[i - 1]) then op.data else []
  }

  lemma StreamGrows(accepted: seq<Byte>, waiting: seq<Byte>, data: seq<Byte>, n: nat)
    requires n <= |data| && (waiting == [] || n == 0)
    ensures (accepted + data[..n]) + (waiting + data[n..]) == (accepted + waiting) + data
  {
  }

  lemma StreamMoves(accepted: seq<Byte>, waiting: seq<Byte>, n: nat)
    requires n <= |waiting|
    ensures (accepted + waiting[..n]) + waiting[n..] == accepted + waiting
  {
  }

  /** With a channel that is writing exactly while bytes wait. */
  lemma FlushTakes(s: Stream, k: WriteResult, taken: nat)
    requires k.Wrote? ==> k.n <= |s.waiting|
    requires taken == if s.waiting != [] && k.Wrote? then k.n else 0
    ensures After(s, FlushOp(k)) == Stream(s.accepted + s.waiting[..taken], s.waiting[taken..])
  {
    assert s.accepted + s.waiting[..0] == s.accepted;
  }

  lemma SendTakes(s: Stream, data: seq<Byte>, k: WriteResult, nwrote: nat, fault: bool)
    requires k.Wrote? ==> k.n <= |data|
    requires nwrote == if s.waiting == [] && k.Wrote? then k.n else 0
    requires fault <==> s.waiting == [] && k in {WriteError(EPIPE), WriteError(ECONNRESET)}
    ensures After(s, SendOp(data, k)) ==
      Stream(s.accepted + data[..nwrote], if fault then s.waiting else s.waiting + data[nwrote..])
  {
    assert s.accepted + data[..0] == s.accepted && data[0..] == data;
    assert s.waiting == [] ==> s.waiting + data[nwrote..] == data[nwrote..];
  }

  /** In every run of sends and flushes, whatever the kernel takes of each: the bytes it took, then those
      that wait, are the messages in order, but for those whose direct write met EPIPE or ECONNRESET. */
  lemma {:induction false} StreamConserved(ops: seq<StreamOp>, ss: seq<Stream>, i: nat)
    requires IsStreamRun(ops, ss) && i < |ss|
    ensures ss[i].accepted + ss[i].waiting == Messages(ops, ss, i)
  {
    if i > 0 {
      StreamConserved(ops, ss, i - 1);
      var s, op := ss[i - 1], ops[i - 1];
      if op.SendOp? {
        StreamGrows(s.accepted, s.waiting, op.data, if s.waiting == [] && op.k.Wrote? then op.k.n else 0);
      } else if op.k.Wrote? && op.k.n <= |s.waiting| {
        StreamMoves(s.accepted, s.waiting, op.k.n);
      }
    }
  }

  class TcpConnection {
    const channel: Channel
    const inputBuffer: Buffer
    const outputBuffer: Buffer
    var state: ConnState
    ghost var streamed: seq<Byte>   // all messages whose send() met no fault, in order
    ghost var accepted: seq<Byte>   // all bytes the kernel took, in order
    ghost var closed: bool          // handleClose() or connectDestroyed() was entered
    ghost var log: seq<Event>       // what the connection went through, in order

    ghost function Stands(): Standing
      reads this, channel
    {
      Standing(state, channel.index.Added?, log)
    }

    ghost function Output(): Stream
      reads this, outputBuffer, outputBuffer.storage
      requires outputBuffer.Valid()
    {
      Stream(accepted, outputBuffer.Contents())
    }

    /** Every byte of the stream was taken by the kernel or waits in the output buffer. */
    ghost predicate Conserved()
      reads this, outputBuffer, outputBuffer.storage
      requires outputBuffer.Valid()
    {
      accepted + outputBuffer.Contents() == streamed
    }

    /** Until the connection closes, bytes wait exactly while the channel asks for EPOLLOUT. */
    ghost predicate Flowing()
      reads this`closed, outputBuffer, outputBuffer.storage, channel
      requires outputBuffer.Valid()
    {
      !closed ==>
        && (outputBuffer.Contents() != [] <==> channel.IsWriting())
        && (channel.index.New? ==> channel.events == NONE_EVENT)
    }

    /** Everything but the account of the stream. */
    ghost predicate Wired()
      reads this`closed, inputBuffer, outputBuffer, outputBuffer.storage
      reads channel, channel.poller, channel.poller.members
    {
      && inputBuffer != outputBuffer && inputBuffer.storage != outputBuffer.storage
      && inputBuffer.Valid() && outputBuffer.Valid()
      && channel.Ready()
      && Flowing()
    }

    ghost predicate Valid()
      reads this, inputBuffer, outputBuffer, outputBuffer.storage
      reads channel, channel.poller, channel.poller.members
    {
      Wired() && Conserved()
    }

    constructor (poller: EPollPoller, fd: int)
      requires poller.Valid() && fd !in poller.channels
      modifies poller`members
      ensures Valid() && fresh(channel) && fresh(inputBuffer) && fresh(outputBuffer)
      ensures fresh(inputBuffer.storage) && fresh(outputBuffer.storage)
      ensures channel.poller == poller && channel.fd == fd && channel.index == New && channel.events == NONE_EVENT
      ensures poller.members == old(poller.members) + {channel}
      ensures state == Connecting && !closed && log == [] && streamed == [] && accepted == []
    {
      channel := new Channel(poller, fd);
      inputBuffer := new Buffer();
      outputBuffer := new Buffer();
      state := Connecting;
      streamed, accepted, closed, log := [], [], false, [];
    }

    /** Bytes wait exactly while EPOLLOUT of the descriptor is in the kernel's interest set. */
    lemma NoStuckBytes()
      requires Valid() && !closed
      ensures outputBuffer.Contents() != [] <==>
        channel.fd in channel.poller.kernel && Out in channel.poller.kernel[channel.fd].events
    {
      channel.HeldIffAdded();
    }

    method Send(data: seq<Byte>, k: WriteResult)
      requires Valid()
      requires k.Wrote? ==> k.n <= |data|
      modifies this`streamed, this`accepted, outputBuffer, outputBuffer.storage
      modifies channel`events, channel`index
      modifies channel.poller`channels, channel.poller`kernel, channel.poller`ctlFailures
      ensures Valid() && outputBuffer.OwnStorage()
      ensures channel.poller.ctlFailures == old(channel.poller.ctlFailures)
      ensures var direct := old(outputBuffer.Contents()) == [];
        && streamed == old(streamed) + (if direct && k in {WriteError(EPIPE), WriteError(ECONNRESET)} then [] else data)
        && accepted == old(accepted) + (if direct && k.Wrote? then data[..k.n] else [])
        && (direct && k in {WriteError(EWOULDBLOCK), WriteError(OtherErrno)} ==> outputBuffer.Contents() == data)
        && (direct && k.Wrote? ==> outputBuffer.Contents() == data[k.n..])
        && (direct && k in {WriteError(EPIPE), WriteError(ECONNRESET)} ==>
              outputBuffer.Contents() == [] && unchanged(channel))
        && (!direct ==> outputBuffer.Contents() == old(outputBuffer.Contents()) + data)
      ensures Output() == After(old(Output()), SendOp(data, k))
    {
      ghost var waiting := outputBuffer.Contents();
      var nwrote, faultError := WriteDirectly(k);
      if !faultError && |data| - nwrote > 0 {
        Queue(data[nwrote..]);
      }
      SendTakes(Stream(accepted, waiting), data, k, nwrote, faultError);
      StreamGrows(accepted, waiting, data, nwrote);
      accepted, streamed := accepted + data[..nwrote], streamed + if faultError then [] else data;
    }

    /** The start of send(): an empty output buffer lets the message go to the kernel at once.  An error
        counts as nothing written. */
    method WriteDirectly(k: WriteResult) returns (nwrote: nat, faultError: bool)
      requires outputBuffer.Valid()
      ensures nwrote == if outputBuffer.Contents() == [] && k.Wrote? then k.n else 0
      ensures faultError <==> outputBuffer.Contents() == [] && k in {WriteError(EPIPE), WriteError(ECONNRESET)}
    {
      nwrote, faultError := 0, false;
      var readable := outputBuffer.ReadableBytes();
      if readable == 0 {
        match k
        case Wrote(n) => nwrote := n;
        case WriteError(errno) =>
          if errno != EWOULDBLOCK {
            if errno == EPIPE || errno == ECONNRESET {
              faultError := true;
            }
          }
      }
    }

    /** The end of send(): what the kernel did not take goes to the output buffer. */
    method Queue(rest: seq<Byte>)
      requires rest != []
      requires Wired()
      modifies outputBuffer, outputBuffer.storage, channel`events, channel`index
      modifies channel.poller`channels, channel.poller`kernel, channel.poller`ctlFailures
      ensures Wired() && outputBuffer.OwnStorage()
      ensures channel.poller.ctlFailures == old(channel.poller.ctlFailures)
      ensures outputBuffer.Contents() == old(outputBuffer.Contents()) + rest
      ensures old(!channel.IsWriting()) ==> channel.index.Added?
    {
      outputBuffer.Append(rest);
      if !channel.IsWriting() {
        channel.EnableWriting();
      }
    }

    method HandleWrite(k: WriteResult)
      requires Valid()
      requires k.Wrote? ==> k.n <= |outputBuffer.Contents()|
      modifies this`accepted, outputBuffer, channel`events, channel`index
      modifies channel.poller`channels, channel.poller`kernel, channel.poller`ctlFailures
      ensures Valid() && outputBuffer.OwnStorage()
      ensures channel.poller.ctlFailures == old(channel.poller.ctlFailures)
      ensures var taken := if old(channel.IsWriting()) && k.Wrote? then k.n else 0;
        && accepted == old(accepted) + old(outputBuffer.Contents())[..taken]
        && outputBuffer.Contents() == old(outputBuffer.Contents())[taken..]
      ensures !closed ==> Output() == After(old(Output()), FlushOp(k))
    {
      ghost var before := Output();
      FlushTakes(before, k, if before.waiting != [] && k.Wrote? then k.n else 0);
      if channel.IsWriting() {
        if k.Wrote? && k.n > 0 {
          accepted := accepted + before.waiting[..k.n];
          Drain(k.n);
        }
      }
    }

    /** What handleWrite() does once the kernel took n bytes. */
    method Drain(n: nat)
      requires Wired() && channel.IsWriting() && n <= |outputBuffer.Contents()|
      modifies outputBuffer, channel`events, channel`index
      modifies channel.poller`channels, channel.poller`kernel, channel.poller`ctlFailures
      ensures Wired() && outputBuffer.OwnStorage()
      ensures channel.poller.ctlFailures == old(channel.poller.ctlFailures)
      ensures outputBuffer.Contents() == old(outputBuffer.Contents())[n..]
    {
      outputBuffer.Retrieve(n);
      var readable := outputBuffer.ReadableBytes();
      if readable == 0 {
        channel.DisableWriting();
      }
    }

    method ConnectEstablished()
      requires Valid()
      modifies this`state, this`log, channel`events, channel`index
      modifies channel.poller`channels, channel.poller`kernel, channel.poller`ctlFailures
      ensures Valid() && channel.index == Added && Stands() == AfterEstablished(old(Stands()))
      ensures state == Connected && log == old(log) + [Up]
      ensures channel.poller.ctlFailures == old(channel.poller.ctlFailures)
      ensures channel.poller.kernel ==
        old(channel.poller.kernel)[channel.fd := Interest(channel, old(channel.events) + {In, Pri})]
    {
      state := Connected;
      channel.EnableReading();
      log := log + [Up];
    }

    /** The assert on entry is the precondition on the state. */
    method HandleClose()
      requires Valid() && (state == Connected || state == Disconnecting)
      modifies this`state, this`closed, this`log, channel`events, channel`index
      modifies channel.poller`channels, channel.poller`kernel, channel.poller`ctlFailures
      ensures Valid() && state == Disconnected && closed && log == old(log) + [Down]
      ensures channel.events == NONE_EVENT && channel.poller.ctlFailures == old(channel.poller.ctlFailures)
      ensures old(channel.index.Added?) ==> channel.index == Deleted && channel.fd !in channel.poller.kernel
      ensures old(channel.index.Added?) ==> Stands() == AfterClosed(old(Stands()))
    {
      GoDown();
    }

    /** Shared by the two ways down: no more events, and the connection callback reports DOWN. */
    method GoDown()
      requires Wired()
      modifies this`state, this`closed, this`log, channel`events, channel`index
      modifies channel.poller`channels, channel.poller`kernel, channel.poller`ctlFailures
      ensures Wired() && state == Disconnected && closed && log == old(log) + [Down]
      ensures channel.events == NONE_EVENT && channel.poller.ctlFailures == old(channel.poller.ctlFailures)
      ensures channel.poller.channels - {channel.fd} == old(channel.poller.channels) - {channel.fd}
      ensures channel.poller.kernel - {channel.fd} == old(channel.poller.kernel) - {channel.fd}
      ensures old(channel.index.Added?) ==> channel.index == Deleted && channel.fd !in channel.poller.kernel
    {
      state := Disconnected;
      closed := true;
      channel.DisableAll();
      log := log + [Down];
    }

    method ConnectDestroyed()
      requires Valid()
      modifies this`state, this`closed, this`log, channel`events, channel`index
      modifies channel.poller`channels, channel.poller`kernel, channel.poller`ctlFailures
      ensures Valid() && closed && Stands() == AfterDestroyed(old(Stands()))
      ensures log == old(log) + if old(state) == Connected then [Down, Destroyed] else [Destroyed]
      ensures state != Connected && !Stands().watched
      ensures channel.index == New && channel.poller.ctlFailures == old(channel.poller.ctlFailures)
      ensures channel.poller.channels == old(channel.poller.channels) - {channel.fd}
      ensures channel.poller.kernel == old(channel.poller.kernel) - {channel.fd}
    {
      closed := true;
      if state == Connected {
        GoDown();
      }
      channel.Remove();
      log := log + [Destroyed];
    }

    method HandleRead(k: ReadResult) returns (action: ReadAction)
      requires Valid() && (k.Received? ==> |k.bytes| <= inputBuffer.Offered())
      requires k == Received([]) ==> state == Connected || state == Disconnecting
      modifies this`state, this`closed, this`log, inputBuffer, inputBuffer.storage, channel`events, channel`index
      modifies channel.poller`channels, channel.poller`kernel, channel.poller`ctlFailures
      ensures Valid() && inputBuffer.OwnStorage()
      ensures inputBuffer.Contents() == old(inputBuffer.Contents()) + if k.Received? then k.bytes else []
      ensures action == if k.ReadError? then Error else if k.bytes == [] then Closed else Message
      ensures action == Closed ==> state == Disconnected && closed && log == old(log) + [Down]
      ensures action != Closed ==> state == old(state) && closed == old(closed) && log == old(log)
    {
      var n, savedErrno := inputBuffer.ReadFd(k);
      if n > 0 {
        action := Message;
      } else if n == 0 {
        action := Closed;
        HandleClose();
      } else {
        action := Error;
      }
    }

    /** The first half of shutdown(); shutdownInLoop() follows on the loop if the answer is true. */
    method Shutdown() returns (scheduled: bool)
      modifies this`state
      ensures scheduled <==> old(state) == Connected
      ensures state == if old(state) == Connected then Disconnecting else old(state)
    {
      scheduled := state == Connected;
      if state == Connected {
        state := Disconnecting;
      }
    }

    /** Until the connection closes, the write side is shut down exactly when the kernel has taken every
        byte of the stream. */
    method ShutdownInLoop() returns (halfClosed: bool)
      requires Valid()
      ensures halfClosed <==> !channel.IsWriting()
      ensures !closed ==> (halfClosed <==> accepted == streamed)
    {
      halfClosed := !channel.IsWriting();
    }
  }
}

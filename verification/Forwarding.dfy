/**
 The two forwarding loops, of clientRelayHandler and handleHostToRelayGameConnection, and what
 the partner sees of them. Each message is copied through a limited reader into a writer on
 the partner's connection, and the loop finalises it by closing that writer. When the loop
 stops inside a message the writer stays open, and it is the close frame of the cleanup that
 finalises what was copied so far: the library takes every new writer, also the one for a
 close frame, after closing the one that was left open.
 */
module Forwarding {
  import opened Options
  import Store

  type Payload = Store.Packet

  /** The configuration that bears on forwarding: NewServerConfig in src/core/Types.go. */
  datatype Config = Config(packetMaximumSize: nat, burst: nat)

  const CLIENT_TO_HOST := Config(2_200_000, 4_000_000)
  const HOST_TO_CLIENT := Config(2_200_000, 12_000_000)

  // ---- The partner's connection ----

  /** The messages finalised on a connection, the one being written, and whether writes fail by now. */
  datatype Wire = Wire(finalised: seq<Payload>, writer: Option<Payload>, failed: bool)

  const FRESH := Wire([], None, false)

  /** After the open writer, if there is one, has been closed. */
  function Flushed(w: Wire, ok: bool): Wire {
    match w.writer
    case None => w
    case Some(part) =>
      if w.failed || !ok then Wire(w.finalised, None, true) else Wire(w.finalised + [part], None, false)
  }

  /** After CloseWebsocket: a writer left open is closed by taking the one for the close frame. */
  function Closed(w: Wire, ok: bool): Wire {
    Flushed(w, ok).(failed := true)
  }

  class Connection {
    var finalised: seq<Payload>
    var writer: Option<Payload>
    var failed: bool

    ghost function State(): Wire
      reads this
    {
      Wire(finalised, writer, failed)
    }

    constructor ()
      ensures State() == FRESH
    {
      finalised, writer, failed := [], None, false;
    }

    method CloseWriter(ok: bool)
      modifies this
      ensures State() == Flushed(old(State()), ok)
    {
      if writer.Some? {
        if failed || !ok {
          failed := true;
        } else {
          finalised := finalised + [writer.value];
        }
        writer := None;
      }
    }

    method NextWriter(ok: bool) returns (got: bool)
      modifies this
      ensures got <==> !Flushed(old(State()), ok).failed && ok
      ensures State() == Flushed(old(State()), ok).(writer := if got then Some([]) else None, failed := !got)
    {
      CloseWriter(ok);
      got := !failed && ok;
      writer, failed := if got then Some([]) else None, !got;
    }

    /** Bytes for the open writer. A failing write closes it, and all later ones fail. */
    method Write(bytes: Payload, ok: bool)
      requires writer.Some? && !failed
      modifies this
      ensures State() == if ok then old(State()).(writer := Some(old(writer.value) + bytes))
                         else Wire(old(finalised), None, true)
    {
      if ok {
        writer := Some(writer.value + bytes);
      } else {
        writer, failed := None, true;
      }
    }

    method CloseWebsocket(ok: bool)
      modifies this
      ensures State() == Closed(old(State()), ok)
    {
      CloseWriter(ok);
      failed := true;
    }
  }

  // ---- What comes in ----

  /** Where a copy breaks off: the sender fails after so many bytes, or the partner does. */
  datatype Fault = NoFault | ReadFault(at: nat) | WriteFault(at: nat)

  /**
   One turn of NextReader, and what meets the message on its way: the partner may have no
   writer for it, the copy may break off, and the closing of the writer may fail, which the
   loop does not notice.
   */
  datatype Turn =
    | ReadError
    | Message(binary: bool, data: Payload, noWriter: bool, fault: Fault, flushFails: bool)

  datatype CloseReason = Unspecified | SocketReadFailed | SocketWriteFailed | PacketTooLarge | InternalError

  /** io.CopyBuffer through io.LimitReader(reader, max + 1): the bytes that reach the writer. */
  function Copied(data: Payload, max: nat): Payload {
    if |data| <= max + 1 then data else data[..max + 1]
  }

  /** The copy meets its fault before the limited reader has delivered all it may. */
  predicate CopyFails(turn: Turn, max: nat)
    requires turn.Message?
  {
    match turn.fault
    case NoFault => false
    case ReadFault(at) => at <= |turn.data| && at <= max
    case WriteFault(at) => at < |Copied(turn.data, max)|
  }

  /** The binary messages of a script, in order. */
  function BinaryMessages(script: seq<Turn>): seq<Payload> {
    if script == [] then []
    else
      var last := script[|script| - 1];
      BinaryMessages(script[..|script| - 1]) + (if last.Message? && last.binary then [last.data] else [])
  }

  /** How many of the first n turns come before the first closing of a writer that fails. */
  function Sound(script: seq<Turn>, n: nat): (k: nat)
    requires n <= |script|
    ensures k <= n
  {
    if n == 0 then 0
    else
      var k, last := Sound(script, n - 1), script[n - 1];
      if k == n - 1 && !(last.Message? && last.binary && last.flushFails) then n else k
  }

  /** The partner has no writer for the message of this turn. */
  predicate NoWriterAt(script: seq<Turn>, i: nat)
    requires i < |script| && script[i].Message?
  {
    script[i].noWriter || Sound(script, i) < i
  }

  /** A turn that ends the loop: a fault, or a binary message that is too large for the limits. */
  predicate StopsAt(script: seq<Turn>, i: nat, config: Config)
    requires i < |script|
  {
    var turn := script[i];
    || turn.ReadError?
    || (turn.binary && (NoWriterAt(script, i) || CopyFails(turn, config.packetMaximumSize)
                        || |turn.data| > config.packetMaximumSize || |turn.data| > config.burst))
  }

  /** What a turn that stops the loop counts as. */
  function StopReason(script: seq<Turn>, i: nat, config: Config): CloseReason
    requires i < |script|
  {
    match script[i]
    case ReadError => SocketReadFailed
    case Message(_, data, _, _, _) =>
      if NoWriterAt(script, i) then SocketWriteFailed
      else if CopyFails(script[i], config.packetMaximumSize) then SocketReadFailed
      else if |data| > config.packetMaximumSize then PacketTooLarge
      else InternalError
  }

  /** n is where the loop ends: at the first turn that stops it, or at the end of the script. */
  predicate EndsAt(script: seq<Turn>, config: Config, n: nat) {
    && n <= |script|
    && (forall i :: 0 <= i < n ==> !StopsAt(script, i, config))
    && (n < |script| ==> StopsAt(script, n, config))
  }

  /** What the partner's writer still holds when the loop has stopped at n, if it is open. */
  function LeftOpen(script: seq<Turn>, config: Config, n: nat): Option<Payload>
    requires n <= |script|
  {
    if n == |script| || script[n].ReadError? || NoWriterAt(script, n) then None
    else
      var data := script[n].data;
      if !CopyFails(script[n], config.packetMaximumSize) then Some(Copied(data, config.packetMaximumSize))
      else if script[n].fault.ReadFault? then Some(data[..script[n].fault.at])
      else None
  }

  /** What the loop leaves of the partner's connection when it has stopped at n. */
  function LeftBy(script: seq<Turn>, config: Config, n: nat): Wire
    requires n <= |script|
  {
    Wire(BinaryMessages(script[..Sound(script, n)]), LeftOpen(script, config, n),
      Sound(script, n) < n || (n < |script| && script[n].Message? && LeftOpen(script, config, n).None?))
  }

  /** What one binary message leaves of a connection without an open writer. */
  function AfterMessage(w: Wire, turn: Turn, config: Config): Wire
    requires turn.Message?
  {
    var max := config.packetMaximumSize;
    if turn.noWriter || w.failed then w.(failed := true)
    else if CopyFails(turn, max) then
      if turn.fault.ReadFault? then w.(writer := Some(turn.data[..turn.fault.at])) else w.(failed := true)
    else if |turn.data| > max || |turn.data| > config.burst then w.(writer := Some(Copied(turn.data, max)))
    else Flushed(w.(writer := Some(turn.data)), !turn.flushFails)
  }

  /** One binary message, from NextWriter to the closing of the writer, or to what stops the loop. */
  method ForwardMessage(turn: Turn, config: Config, partner: Connection) returns (closeReason: CloseReason)
    requires turn.Message? && partner.writer.None?
    modifies partner
    ensures partner.State() == AfterMessage(old(partner.State()), turn, config)
    ensures closeReason == if turn.noWriter || old(partner.failed) then SocketWriteFailed
                           else if CopyFails(turn, config.packetMaximumSize) then SocketReadFailed
                           else if |turn.data| > config.packetMaximumSize then PacketTooLarge
                           else if |turn.data| > config.burst then InternalError
                           else Unspecified
  {
    var got := partner.NextWriter(!turn.noWriter);
    if !got {
      return SocketWriteFailed;
    }
    var written := Copied(turn.data, config.packetMaximumSize);
    if CopyFails(turn, config.packetMaximumSize) {
      assert [] + written[..turn.fault.at] == turn.data[..turn.fault.at];
      partner.Write(written[..turn.fault.at], turn.fault.ReadFault?);
      return SocketReadFailed;
    }
    assert [] + written == written;
    partner.Write(written, true);
    if |written| > config.packetMaximumSize {
      return PacketTooLarge;
    }
    if |written| > config.burst {
      return InternalError;
    }
    partner.CloseWriter(!turn.flushFails);
    closeReason := Unspecified;
  }

  /** The partner's connection when the loop has got through the first n turns. */
  function InLoop(script: seq<Turn>, n: nat): Wire
    requires n <= |script|
  {
    Wire(BinaryMessages(script[..Sound(script, n)]), None, Sound(script, n) < n)
  }

  lemma NextTurn(script: seq<Turn>, n: nat, config: Config)
    requires n < |script| && script[n].Message?
    ensures !script[n].binary ==> InLoop(script, n + 1) == InLoop(script, n)
    ensures script[n].binary && !StopsAt(script, n, config) ==>
              InLoop(script, n + 1) == AfterMessage(InLoop(script, n), script[n], config)
    ensures script[n].binary && StopsAt(script, n, config) ==>
              LeftBy(script, config, n) == AfterMessage(InLoop(script, n), script[n], config)
  {
    assert script[..n + 1][..n] == script[..n];
  }

  /** The loop. It returns how many turns it took, and its reason. */
  method Forward(script: seq<Turn>, config: Config, partner: Connection) returns (turns: nat, closeReason: CloseReason)
    requires partner.State() == FRESH
    modifies partner
    ensures EndsAt(script, config, turns)
    ensures partner.State() == LeftBy(script, config, turns)
    ensures closeReason == if turns == |script| then Unspecified else StopReason(script, turns, config)
  {
    turns, closeReason := 0, Unspecified;
    while turns < |script|
      invariant turns <= |script| && closeReason == Unspecified
      invariant forall i :: 0 <= i < turns ==> !StopsAt(script, i, config)
      invariant partner.State() == InLoop(script, turns)
    {
      var turn := script[turns];
      if turn.ReadError? {
        closeReason := SocketReadFailed;
        break;
      }
      NextTurn(script, turns, config);
      if turn.binary {
        closeReason := ForwardMessage(turn, config, partner);
        if closeReason != Unspecified {
          break;
        }
      }
      turns := turns + 1;
    }
  }

  // ---- What the partner sees ----

  lemma {:induction false} BinaryMessagesGrow(script: seq<Turn>, i: nat, n: nat)
    requires i <= n <= |script|
    ensures BinaryMessages(script[..i]) <= BinaryMessages(script[..n])
  {
    if i < n {
      BinaryMessagesGrow(script, i, n - 1);
      assert script[..n][..n - 1] == script[..n - 1];
    }
  }

  /** What the loop finalises itself are whole messages within the maximum. */
  lemma {:induction false} LoopFinalisesWithinMaximum(script: seq<Turn>, config: Config, n: nat)
    requires n <= |script| && forall i :: 0 <= i < n ==> !StopsAt(script, i, config)
    ensures forall p :: p in BinaryMessages(script[..n]) ==> |p| <= config.packetMaximumSize
  {
    if n > 0 {
      LoopFinalisesWithinMaximum(script, config, n - 1);
      assert script[..n][..n - 1] == script[..n - 1];
      assert !StopsAt(script, n - 1, config);
    }
  }

  /** The messages that the partner gets to see, when the loop has stopped at n. */
  function Seen(script: seq<Turn>, config: Config, n: nat, closed: bool, ok: bool): seq<Payload>
    requires n <= |script|
  {
    if closed then Closed(LeftBy(script, config, n), ok).finalised else LeftBy(script, config, n).finalised
  }

  /**
   The binary messages before the stop, in order and byte for byte, up to the first closing of
   a writer that failed; and then, exactly when the loop stopped with a writer open and the
   connection is closed and takes the close frame, what that writer held.
   */
  lemma PartnerSees(script: seq<Turn>, config: Config, n: nat, closed: bool, ok: bool)
    requires EndsAt(script, config, n)
    ensures Seen(script, config, n, closed, ok) ==
            BinaryMessages(script[..Sound(script, n)]) +
            (if closed && ok && LeftOpen(script, config, n).Some? then [LeftOpen(script, config, n).value] else [])
  {
    var seen := BinaryMessages(script[..Sound(script, n)]);
    assert seen + [] == seen;
  }

  /**
   No message beyond the maximum is finalised, except for one: exactly when the loop stopped
   on an oversize message and the partner's connection is closed after that, the close frame
   finalises its first bytes, one more than the maximum.
   */
  lemma OversizeIsFinalisedExactly(script: seq<Turn>, config: Config, n: nat, closed: bool, ok: bool)
    requires EndsAt(script, config, n)
    ensures var seen, max := Seen(script, config, n, closed, ok), config.packetMaximumSize;
            && ((exists p :: p in seen && |p| > max) <==>
                closed && ok && n < |script| && StopReason(script, n, config) == PacketTooLarge)
            && (forall p :: p in seen && |p| > max ==>
                  n < |script| && script[n].Message? && |p| == max + 1 && p <= script[n].data)
  {
    PartnerSees(script, config, n, closed, ok);
    LoopFinalisesWithinMaximum(script, config, Sound(script, n));
    if closed && ok && n < |script| && StopReason(script, n, config) == PacketTooLarge {
      assert LeftOpen(script, config, n).value in Seen(script, config, n, closed, ok);
    }
  }

  /**
   The partner is shown a beginning of the sender's binary messages, each of them whole,
   unless the loop stopped with a part of a message in the writer and the partner's
   connection is closed after that: then that part passes for a message.
   */
  lemma PartPassesForMessageExactly(script: seq<Turn>, config: Config, n: nat, closed: bool, ok: bool)
    requires EndsAt(script, config, n)
    ensures Seen(script, config, n, closed, ok) <= BinaryMessages(script) <==>
            !(closed && ok && LeftOpen(script, config, n).Some? && LeftOpen(script, config, n).value != script[n].data)
  {
    PartnerSees(script, config, n, closed, ok);
    assert script[..|script|] == script;
    BinaryMessagesGrow(script, Sound(script, n), |script|);
    if closed && ok && LeftOpen(script, config, n).Some? {
      OneMoreTurn(script, n);
      BinaryMessagesGrow(script, n + 1, |script|);
      var whole, k := BinaryMessages(script), |BinaryMessages(script[..n])|;
      assert whole[k] == BinaryMessages(script[..n + 1])[k] == script[n].data;
      assert Seen(script, config, n, closed, ok)[k] == LeftOpen(script, config, n).value;
    }
  }

  lemma OneMoreTurn(script: seq<Turn>, n: nat)
    requires n < |script| && script[n].Message? && script[n].binary
    ensures BinaryMessages(script[..n + 1]) == BinaryMessages(script[..n]) + [script[n].data]
  {
    assert script[..n + 1][..n] == script[..n];
  }

  // ---- The faults themselves ----

  /** The sender fails within what the limited reader may deliver. */
  predicate SenderFails(turn: Turn, max: nat) {
    turn.Message? && turn.fault.ReadFault? && turn.fault.at <= |turn.data| && turn.fault.at <= max
  }

  /** The partner fails before all that the limited reader delivers is written. */
  predicate PartnerFails(turn: Turn, max: nat) {
    turn.Message? && turn.fault.WriteFault? && turn.fault.at < |turn.data| && turn.fault.at <= max
  }

  /** A closing of a writer failed before turn n. */
  predicate FlushFailedBefore(script: seq<Turn>, n: nat)
    requires n <= |script|
  {
    exists i :: 0 <= i < n && script[i].Message? && script[i].binary && script[i].flushFails
  }

  lemma {:induction false} SoundUnlessFlushFailed(script: seq<Turn>, n: nat)
    requires n <= |script|
    ensures Sound(script, n) == n <==> !FlushFailedBefore(script, n)
  {
    if n > 0 {
      SoundUnlessFlushFailed(script, n - 1);
      if FlushFailedBefore(script, n) && !FlushFailedBefore(script, n - 1) {
        assert script[n - 1].Message? && script[n - 1].binary && script[n - 1].flushFails;
      }
    }
  }

  /**
   What the loop gets past, on every script: of the turns before its end none is a read error,
   and every binary one had a writer, was copied without a fault, and is within both limits.
   */
  lemma LoopPassesNoFault(script: seq<Turn>, config: Config, n: nat, i: nat)
    requires EndsAt(script, config, n) && i < n
    ensures script[i].Message?
    ensures script[i].binary ==>
              && !script[i].noWriter && !FlushFailedBefore(script, i)
              && !SenderFails(script[i], config.packetMaximumSize) && !PartnerFails(script[i], config.packetMaximumSize)
              && |script[i].data| <= config.packetMaximumSize && |script[i].data| <= config.burst
  {
    assert !StopsAt(script, i, config);
    SoundUnlessFlushFailed(script, i);
  }

  /** Why the loop stops where it does, case by case and in this order. */
  lemma StopsForTheFirstCause(script: seq<Turn>, config: Config, n: nat)
    requires EndsAt(script, config, n) && n < |script|
    ensures var turn, max, reason := script[n], config.packetMaximumSize, StopReason(script, n, config);
            if turn.ReadError? then reason == SocketReadFailed
            else
              && turn.binary
              && if turn.noWriter || FlushFailedBefore(script, n) then reason == SocketWriteFailed
                 else if SenderFails(turn, max) || PartnerFails(turn, max) then reason == SocketReadFailed
                 else if |turn.data| > max then reason == PacketTooLarge
                 else reason == InternalError && |turn.data| > config.burst
  {
    SoundUnlessFlushFailed(script, n);
  }

  /** Of a message that the partner failed to take nothing is ever finalised, closed or not. */
  lemma PartnerFaultsFinaliseNothing(script: seq<Turn>, config: Config, n: nat, closed: bool, ok: bool)
    requires EndsAt(script, config, n) && n < |script| && PartnerFails(script[n], config.packetMaximumSize)
    ensures LeftOpen(script, config, n) == None
    ensures Seen(script, config, n, closed, ok) == BinaryMessages(script[..Sound(script, n)])
  {
    PartnerSees(script, config, n, closed, ok);
  }

  // ---- Two messages that should not have arrived ----

  function Sent(data: Payload, fault: Fault): seq<Turn> {
    [Message(true, data, false, fault, false)]
  }

  /** One message of a byte too many: the loop stops on it, and the partner gets all of it. */
  lemma OversizeMessageArrives(config: Config, data: Payload)
    requires |data| == config.packetMaximumSize + 1
    ensures EndsAt(Sent(data, NoFault), config, 0)
    ensures StopReason(Sent(data, NoFault), 0, config) == PacketTooLarge
    ensures Seen(Sent(data, NoFault), config, 0, true, true) == [data]
  {
  }

  /** The sender breaks off inside a message: the partner gets what was read of it as a message. */
  lemma TruncatedMessageArrives(config: Config, data: Payload, at: nat)
    requires at < |data| && at <= config.packetMaximumSize
    ensures EndsAt(Sent(data, ReadFault(at)), config, 0)
    ensures StopReason(Sent(data, ReadFault(at)), 0, config) == SocketReadFailed
    ensures Seen(Sent(data, ReadFault(at)), config, 0, true, true) == [data[..at]] != [data]
  {
  }

  // ---- The limiter ----

  /**
   With the shipped limits, in both directions: a binary message without a fault, for which
   there is a writer, stops the loop if and only if it has more than 2,200,000 bytes.
   */
  lemma ShippedLimits(script: seq<Turn>, i: nat, config: Config)
    requires config == CLIENT_TO_HOST || config == HOST_TO_CLIENT
    requires i < |script| && script[i].Message? && script[i].binary && script[i].fault == NoFault
             && !NoWriterAt(script, i)
    ensures StopsAt(script, i, config) <==> |script[i].data| > 2_200_000
  {
  }

  /** With the shipped limits the rate limiter refuses nothing that the size limit lets through. */
  lemma LimiterNeverRefuses(script: seq<Turn>, n: nat, config: Config)
    requires config == CLIENT_TO_HOST || config == HOST_TO_CLIENT
    requires EndsAt(script, config, n) && n < |script|
    ensures StopReason(script, n, config) != InternalError
  {
  }
}

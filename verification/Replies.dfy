/** Request and reply on one stream: timeouts, late replies, and the peeked message. */
module Replies {

  /** `Remote` is a reply too, one that reports the failure of the peer's handler. */
  datatype Outcome<+M> = Got(msg: M) | Remote(msg: M) | TimedOut | Closed

  /** The receive side of a stream. `M` is a message; a call takes from `arriving`, the messages that reach the
      inbox before its timeout or before the connection closes, in order; `closing` says which of the two. */
  class Stream<M(0)> {
    var staleReplies: nat
    var hasPeeked: bool
    var peeked: M

    constructor (m: M)
      ensures staleReplies == 0 && !hasPeeked
    {
      staleReplies, hasPeeked, peeked := 0, false, m;
    }

    /** What reading behind `stale` late replies comes to. */
    static ghost predicate Reads(stale: nat, arriving: seq<M>, closing: bool, r: Outcome<M>, used: nat, left: int) {
      if stale < |arriving| then r == Got(arriving[stale]) && used == stale + 1 && left == 0
      else r == (if closing then Closed else TimedOut) && used == |arriving| && left == stale - used
    }

    /** Late replies are discarded first. `used` counts the messages taken from the inbox. */
    method ReadRaw(arriving: seq<M>, closing: bool) returns (r: Outcome<M>, used: nat)
      modifies this`staleReplies
      ensures Reads(old(staleReplies), arriving, closing, r, used, staleReplies)
    {
      used := 0;
      while true
        invariant used <= |arriving| && staleReplies + used == old(staleReplies)
        decreases |arriving| - used
      {
        if used == |arriving| {
          return if closing then Closed else TimedOut, used;
        }
        var msg := arriving[used];
        used := used + 1;
        if staleReplies == 0 {
          return Got(msg), used;
        }
        staleReplies := staleReplies - 1;
      }
    }

    method TakeRaw(arriving: seq<M>, closing: bool) returns (r: Outcome<M>, used: nat)
      modifies this`staleReplies, this`hasPeeked
      ensures !hasPeeked
      ensures if old(hasPeeked) then r == Got(peeked) && used == 0 && staleReplies == old(staleReplies)
              else Reads(old(staleReplies), arriving, closing, r, used, staleReplies)
    {
      if hasPeeked {
        hasPeeked := false;
        return Got(peeked), 0;
      }
      r, used := ReadRaw(arriving, closing);
    }

    method PeekRaw(arriving: seq<M>, closing: bool) returns (r: Outcome<M>, used: nat)
      modifies this
      ensures hasPeeked == r.Got? && (r.Got? ==> peeked == r.msg)
      ensures if old(hasPeeked) then r == Got(old(peeked)) && used == 0 && staleReplies == old(staleReplies)
              else Reads(old(staleReplies), arriving, closing, r, used, staleReplies)
    {
      if hasPeeked {
        return Got(peeked), 0;
      }
      r, used := ReadRaw(arriving, closing);
      if r.Got? {
        peeked := r.msg;
        hasPeeked := true;
      }
    }

    /** The receive part of SendRecv: only after a timeout is the reply still due, and will be stale. */
    method AwaitReply(arriving: seq<M>, closing: bool, isError: M -> bool) returns (r: Outcome<M>, used: nat)
      modifies this`staleReplies, this`hasPeeked
      ensures !hasPeeked
      ensures r.Got? ==> !isError(r.msg)
      ensures r.Remote? ==> isError(r.msg)
      ensures var raw := if r.Remote? then Got(r.msg) else r;
              if old(hasPeeked) then raw == Got(peeked) && used == 0 && staleReplies == old(staleReplies)
              else Reads(old(staleReplies), arriving, closing, raw, used, staleReplies - if r.TimedOut? then 1 else 0)
    {
      r, used := TakeRaw(arriving, closing);
      if r.TimedOut? {
        staleReplies := staleReplies + 1;
      } else if r.Got? && isError(r.msg) {
        r := Remote(r.msg);
      }
    }
  }

  // ---------------------------------------------------------------- every pattern of timeouts

  /** One call on the stream, and how many replies arrive while it waits. */
  datatype Call = SendRecv(arrives: nat) | PeekWire(arrives: nat)

  function Smaller(a: nat, b: nat): nat { if a < b then a else b }

  /** The peer answers request number `n` with the message `n`, in order. The replies that can arrive during a call
      are the next ones not consumed, up to those of the requests sent so far. */
  function Window(consumed: nat, sent: nat, arrives: nat): (r: seq<nat>)
    requires consumed <= sent
    ensures |r| == Smaller(arrives, sent - consumed)
    ensures forall i :: 0 <= i < |r| ==> r[i] == consumed + i
  {
    seq(Smaller(arrives, sent - consumed), i => consumed + i)
  }

  /** The requests among the first `n` calls. */
  function Requests(calls: seq<Call>, n: nat): nat
    requires n <= |calls|
  {
    if n == 0 then 0 else Requests(calls, n - 1) + (if calls[n - 1].SendRecv? then 1 else 0)
  }

  /** The replies that arrived during the first `n` calls: each call lets in some of those still due. */
  function Arrived(calls: seq<Call>, n: nat): (r: nat)
    requires n <= |calls|
    ensures r <= Requests(calls, n)
  {
    if n == 0 then 0
    else
      var before := Arrived(calls, n - 1);
      before + Smaller(calls[n - 1].arrives, Requests(calls, n) - before)
  }

  /** What call `i` may return: its own reply, exactly when the replies that arrived reach it, and as the failure or
      the success that it is. */
  ghost predicate OwnReply(calls: seq<Call>, isError: nat -> bool, i: nat, reply: Outcome<nat>)
    requires i < |calls|
  {
    var n := Requests(calls, i);
    reply == if !calls[i].SendRecv? || Arrived(calls, i + 1) != Requests(calls, i + 1) then TimedOut
             else if isError(n) then Remote(n) else Got(n)
  }

  /** What the calls of a session returned, in order; a peek, which finds no reply of its own, times out. `stale` is
      the stream's count at the end. */
  method Session(calls: seq<Call>, isError: nat -> bool) returns (replies: seq<Outcome<nat>>, stale: nat)
    ensures |replies| == |calls|
    ensures forall i :: 0 <= i < |calls| ==> OwnReply(calls, isError, i, replies[i])
    // The stream counts exactly the replies not consumed yet, and all their requests timed out.
    ensures stale == Requests(calls, |calls|) - Arrived(calls, |calls|)
    ensures forall i :: 0 <= i < |calls| && calls[i].SendRecv? && Requests(calls, i) >= Arrived(calls, |calls|) ==> replies[i].TimedOut?
  {
    var stream := new Stream<nat>(0);
    replies := [];
    var sent, consumed := 0, 0;
    for i := 0 to |calls|
      invariant |replies| == i && sent == Requests(calls, i) && consumed == Arrived(calls, i)
      invariant forall k :: 0 <= k < i ==> OwnReply(calls, isError, k, replies[k])
      invariant !stream.hasPeeked && stream.staleReplies == sent - consumed
      invariant forall k :: 0 <= k < i && calls[k].SendRecv? && Requests(calls, k) >= consumed ==> replies[k].TimedOut?
    {
      var r, used;
      if calls[i].SendRecv? {
        r, used := stream.AwaitReply(Window(consumed, sent + 1, calls[i].arrives), false, isError);
        sent := sent + 1;
      } else {
        r, used := stream.PeekRaw(Window(consumed, sent, calls[i].arrives), false);
      }
      replies := replies + [r];
      consumed := consumed + used;
      assert Arrived(calls, i + 1) == consumed;
      assert OwnReply(calls, isError, i, replies[i]);
    }
    stale := stream.staleReplies;
  }
}

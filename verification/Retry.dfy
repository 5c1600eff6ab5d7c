/** AutoRetryUnary with the default policy: call, and on UNAVAILABLE wait and call again. */
module Retry {
  import opened Programs
  import opened RoundRobin

  datatype Code = OK | UNAVAILABLE | OtherCode(number: nat)

  /** What one call brings: the flag of its completion and, behind it, a status. */
  datatype Reply = Reply(ok: bool, status: Code)

  /** Seconds between one call and the next. */
  const DELAYS: seq<nat> := [1, 2, 3, 5, 8]

  function Sum(s: seq<nat>): nat {
    if s == [] then 0 else Sum(s[..|s| - 1]) + s[|s| - 1]
  }

  class DefaultRetryPolicy {
    var retryCount: nat

    constructor ()
      ensures retryCount == 0
    {
      retryCount := 0;
    }

    /** The alarm to wait for, or none: give up. */
    method Decide(status: Code) returns (delay: Option<nat>)
      modifies this
      ensures old(retryCount) < 5 && status == UNAVAILABLE ==>
        delay == Some([1, 2, 3, 5, 8][old(retryCount)]) && retryCount == old(retryCount) + 1
      ensures !(old(retryCount) < 5 && status == UNAVAILABLE) ==> delay == None && retryCount == old(retryCount)
    {
      if retryCount < |DELAYS| && status == UNAVAILABLE {
        delay := Some(DELAYS[retryCount]);
        retryCount := retryCount + 1;
      } else {
        delay := None;
      }
    }
  }

  // ---- what a sequence of replies leads to ----

  /** The policy asks for a wait after call k. */
  predicate Retries(reply: Reply, k: nat) {
    reply.ok && reply.status == UNAVAILABLE && k < |DELAYS|
  }

  /** Call k, with the alarm after it, is not followed by another call. */
  predicate Decisive(replies: nat -> Reply, alarms: nat -> bool, k: nat) {
    !Retries(replies(k), k) || !alarms(k)
  }

  /** The first decisive call from k on. */
  function LastCall(replies: nat -> Reply, alarms: nat -> bool, k: nat): (last: nat)
    requires k <= |DELAYS|
    ensures k <= last <= |DELAYS| && Decisive(replies, alarms, last)
    ensures forall j: nat | k <= j < last :: !Decisive(replies, alarms, j)
    decreases |DELAYS| - k
  {
    if Decisive(replies, alarms, k) then k else LastCall(replies, alarms, k + 1)
  }

  /** The alarms requested: one after each call but the last, and one more when it is the alarm that fails. */
  function Waits(replies: nat -> Reply, last: nat): nat {
    if Retries(replies(last), last) then last + 1 else last
  }

  method AutoRetryUnary(channels: ChannelSelector, replies: nat -> Reply, alarms: nat -> bool)
    returns (result: bool, status: Code, calls: nat, delays: seq<nat>)
    requires channels.Valid()
    modifies channels
    ensures channels.Valid() && old(channels.chosen) <= channels.chosen
    ensures |channels.chosen| == |old(channels.chosen)| + calls
    ensures calls == LastCall(replies, alarms, 0) + 1 && status == replies(calls - 1).status
    ensures |delays| == Waits(replies, calls - 1) <= 5 && delays == [1, 2, 3, 5, 8][..|delays|]
    ensures result <==> replies(calls - 1).ok && |delays| == calls - 1
  {
    var policy := new DefaultRetryPolicy();
    calls, delays := 0, [];
    while true
      invariant calls == policy.retryCount <= |DELAYS| && delays == DELAYS[..calls]
      invariant LastCall(replies, alarms, 0) == LastCall(replies, alarms, calls)
      invariant channels.Valid() && old(channels.chosen) <= channels.chosen
      invariant |channels.chosen| == |old(channels.chosen)| + calls
      decreases |DELAYS| - calls
    {
      var channel := channels.SelectNextChannel();
      var reply := replies(calls);
      status := reply.status;
      calls := calls + 1;
      if !reply.ok {
        return false, status, calls, delays;
      }
      if status == OK {
        return true, status, calls, delays;
      }
      var shouldRetry := policy.Decide(status);
      match shouldRetry
      case None =>
        return true, status, calls, delays;
      case Some(delay) =>
        delays := delays + [delay];
        if !alarms(calls - 1) {
          return false, status, calls, delays;
        }
    }
  }

  lemma {:induction false} PrefixSums(n: nat)
    requires n <= |DELAYS|
    ensures Sum(DELAYS[..n]) == if n == 0 then 0 else if n == 1 then 1 else if n == 2 then 3 else if n == 3 then 6
                                else if n == 4 then 11 else 19
  {
    if n > 0 {
      PrefixSums(n - 1);
      assert DELAYS[..n][..n - 1] == DELAYS[..n - 1];
    }
  }

  /** At most 6 calls and 5 alarms, of 19 s in all: reached exactly when five calls in a row were
      unavailable and none of the four alarms between them failed. */
  lemma RetryBound(replies: nat -> Reply, alarms: nat -> bool)
    ensures var last := LastCall(replies, alarms, 0);
      var waits := Waits(replies, last);
      && last + 1 <= 6 && waits <= 5 && Sum(DELAYS[..waits]) <= 19
      && (Sum(DELAYS[..waits]) == 19 <==>
          (forall k: nat | k < 5 :: replies(k) == Reply(true, UNAVAILABLE)) && (forall k: nat | k < 4 :: alarms(k)))
  {
    var last := LastCall(replies, alarms, 0);
    PrefixSums(Waits(replies, last));
    if Waits(replies, last) == 5 {
      forall k: nat | k < 5 ensures replies(k) == Reply(true, UNAVAILABLE) && (k < 4 ==> alarms(k)) {
        if k < last { assert !Decisive(replies, alarms, k); }
      }
    } else if (forall k: nat | k < 5 :: replies(k) == Reply(true, UNAVAILABLE))
              && (forall k: nat | k < 4 :: alarms(k)) {
      assert Decisive(replies, alarms, last);
    }
  }

  /** The result, from the replies alone: false exactly when the last call or the last alarm reported
      false; true exactly when the last status is final or was the sixth UNAVAILABLE. */
  lemma ResultIff(replies: nat -> Reply, alarms: nat -> bool)
    ensures var last := LastCall(replies, alarms, 0);
      var result := replies(last).ok && Waits(replies, last) == last;
      && (!result <==> !replies(last).ok || (Waits(replies, last) == last + 1 && !alarms(last)))
      && (result <==> replies(last).ok && (replies(last).status != UNAVAILABLE || last == 5))
      && (last == 5 ==> forall k: nat | k < 5 :: replies(k) == Reply(true, UNAVAILABLE))
  {
  }

  /** Every call goes out on another channel than the one before it, unless there is only one or
      the counter wraps between them. */
  lemma RetriesMoveOn(chosen: seq<nat>, n: nat, k: nat)
    requires n > 1 && Consecutive(chosen, 1, n) && k + 1 < |chosen| && (1 + k) % WRAP != WRAP - 1
    ensures chosen[k] != chosen[k + 1]
  {
    NextMod(1 + k, WRAP);
    NextMod((1 + k) % WRAP, n);
  }
}

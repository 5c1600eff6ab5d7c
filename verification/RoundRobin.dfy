/** Round robin over a counter of the machine's size_t: the server's executors with a post-increment,
    the client's channels with a pre-increment. */
module RoundRobin {

  /** size_t holds 64 bits. */
  const WRAP: nat := 0x1_0000_0000_0000_0000

  type size_t = n: int | 0 <= n < WRAP witness 0

  /** What a counter of the machine chooses among n targets. */
  function Target(counter: nat, n: nat): nat
    requires n > 0
  {
    counter % WRAP % n
  }

  /** `chosen` are the targets, out of n, of consecutive counter values from `start` on. */
  ghost predicate Consecutive(chosen: seq<nat>, start: nat, n: nat)
    requires n > 0
  {
    forall k | 0 <= k < |chosen| :: chosen[k] == Target(start + k, n)
  }

  function Uses(chosen: seq<nat>, target: nat): nat {
    if chosen == [] then 0
    else Uses(chosen[..|chosen| - 1], target) + if chosen[|chosen| - 1] == target then 1 else 0
  }

  /** No two of the n targets differ in use by more than `gap`. */
  ghost predicate Balanced(chosen: seq<nat>, n: nat, gap: nat) {
    forall a: nat, b: nat | a < n && b < n :: Uses(chosen, a) <= Uses(chosen, b) + gap
  }

  // ---- remainders ----

  lemma OneMore(q: nat, n: nat)
    requires n > 0 && q > 0
    ensures q * n >= n
  {
  }

  /** A remainder is what is left when n is taken away as often as possible. */
  lemma RemainderIs(x: nat, n: nat, q: nat, r: nat)
    requires r < n && x == q * n + r
    ensures x % n == r
  {
    var d := x / n - q;
    assert x == x / n * n + x % n && d * n == r - x % n;
    if d > 0 { OneMore(d, n); } else if d < 0 { OneMore(-d, n); }
  }

  lemma LessByOne(x: nat, n: nat)
    requires 0 < n <= x
    ensures (x - n) % n == x % n
  {
    var q := x / n;
    assert x == q * n + x % n;
    if q == 0 {} else {
      assert x - n == (q - 1) * n + x % n;
      RemainderIs(x - n, n, q - 1, x % n);
    }
  }

  lemma SmallIs(x: nat, n: nat)
    requires x < n
    ensures x % n == x
  {
    RemainderIs(x, n, 0, x);
  }

  lemma {:induction false} NextMod(x: nat, n: nat)
    requires n > 0
    ensures (x + 1) % n == if x % n == n - 1 then 0 else x % n + 1
  {
    if x >= n {
      LessByOne(x, n);
      LessByOne(x + 1, n);
      NextMod(x - n, n);
    } else {
      SmallIs(x, n);
      if x + 1 < n { SmallIs(x + 1, n); } else { RemainderIs(x + 1, n, 1, 0); }
    }
  }

  lemma {:induction false} ModFirst(x: nat, k: nat, n: nat)
    requires n > 0
    ensures (x % n + k) % n == (x + k) % n
  {
    if x >= n {
      LessByOne(x, n);
      LessByOne(x + k, n);
      ModFirst(x - n, k, n);
    } else {
      SmallIs(x, n);
    }
  }

  lemma ModOfRest(x: nat, n: nat)
    requires n > 0
    ensures x >= x % n && (x - x % n) % n == 0
  {
    assert x == x / n * n + x % n;
    RemainderIs(x - x % n, n, x / n, 0);
  }

  lemma ModIsSmall(x: nat, n: nat)
    requires 0 < n <= x
    ensures 2 * (x % n) <= x
  {
    assert x == x / n * n + x % n;
    if x / n > 0 { OneMore(x / n, n); }
  }

  /** Neighbouring counter values choose the same target only at a wrap, or if there is just one. */
  lemma NextTarget(counter: nat, n: nat)
    requires n > 0
    ensures Target(counter + 1, n) == Target(counter, n) <==>
      n == 1 || ((counter + 1) % WRAP == 0 && (WRAP - 1) % n == 0)
  {
    NextMod(counter, WRAP);
    if counter % WRAP != WRAP - 1 { NextMod(counter % WRAP, n); } else { SmallIs(0, n); }
  }

  // ---- counting the numbers of one remainder ----

  /** How many of 0, ..., x - 1 leave the remainder a. */
  function Below(x: nat, n: nat, a: nat): nat
    requires n > 0
  {
    if x == 0 then 0 else Below(x - 1, n, a) + if (x - 1) % n == a then 1 else 0
  }

  function Bit(b: bool): int {
    if b then 1 else 0
  }

  /** Two remainders are met equally often, but for the round under way. */
  lemma {:induction false} BelowDiffers(x: nat, n: nat, a: nat, b: nat)
    requires a < n && b < n
    ensures Below(x, n, a) - Below(x, n, b) == Bit(a < x % n) - Bit(b < x % n)
  {
    if x > 0 {
      BelowDiffers(x - 1, n, a, b);
      NextMod(x - 1, n);
    }
  }

  /** Targets that follow a counter which does not wrap. */
  ghost predicate Straight(chosen: seq<nat>, start: nat, n: nat)
    requires n > 0
  {
    forall k | 0 <= k < |chosen| :: chosen[k] == (start + k) % n
  }

  lemma {:induction false} UsesStraight(chosen: seq<nat>, start: nat, n: nat, a: nat)
    requires n > 0 && Straight(chosen, start, n)
    ensures Uses(chosen, a) == Below(start + |chosen|, n, a) - Below(start, n, a)
  {
    if chosen != [] {
      UsesStraight(chosen[..|chosen| - 1], start, n, a);
    }
  }

  lemma StraightIsBalanced(chosen: seq<nat>, start: nat, n: nat)
    requires n > 0 && Straight(chosen, start, n)
    ensures Balanced(chosen, n, 1)
  {
    forall a: nat, b: nat | a < n && b < n ensures Uses(chosen, a) <= Uses(chosen, b) + 1 {
      UsesStraight(chosen, start, n, a);
      UsesStraight(chosen, start, n, b);
      BelowDiffers(start, n, a, b);
      BelowDiffers(start + |chosen|, n, a, b);
    }
  }

  lemma {:induction false} UsesOfSum(s: seq<nat>, t: seq<nat>, a: nat)
    ensures Uses(s + t, a) == Uses(s, a) + Uses(t, a)
  {
    if t == [] {
      assert s + t == s;
    } else {
      var m := |t| - 1;
      UsesOfSum(s, t[..m], a);
      assert (s + t)[..|s + t| - 1] == s + t[..m];
    }
  }

  // ---- balance ----

  /** A window of selections in which the counter does not wrap. */
  lemma BalancedBeforeWrap(chosen: seq<nat>, start: nat, n: nat)
    requires n > 0 && start + |chosen| <= WRAP && Consecutive(chosen, start, n)
    ensures Balanced(chosen, n, 1)
  {
    forall k | 0 <= k < |chosen| ensures chosen[k] == (start + k) % n { SmallIs(start + k, WRAP); }
    StraightIsBalanced(chosen, start, n);
  }

  /** A window across the wrap, no longer than the counter's range. */
  lemma BalancedAcrossWrap(chosen: seq<nat>, start: nat, n: nat)
    requires n > 0 && start < WRAP && |chosen| <= WRAP && Consecutive(chosen, start, n)
    ensures Balanced(chosen, n, 2)
  {
    if start + |chosen| <= WRAP {
      BalancedBeforeWrap(chosen, start, n);
    } else {
      var cut := WRAP - start;
      var early, late := chosen[..cut], chosen[cut..];
      BalancedBeforeWrap(early, start, n);
      forall k | 0 <= k < |late| ensures late[k] == Target(0 + k, n) {
        assert late[k] == chosen[cut + k];
      }
      BalancedBeforeWrap(late, 0, n);
      assert early + late == chosen;
      forall a: nat, b: nat | a < n && b < n ensures Uses(chosen, a) <= Uses(chosen, b) + 2 {
        UsesOfSum(early, late, a);
        UsesOfSum(early, late, b);
      }
    }
  }

  lemma {:induction false} WrapDoesNotMatter(x: nat, wrap: nat, n: nat)
    requires wrap > 0 && n > 0 && wrap % n == 0
    ensures x % wrap % n == x % n
  {
    if x >= wrap {
      LessByOne(x, wrap);
      WrapDoesNotMatter(x - wrap, wrap, n);
      ModFirst(wrap, x - wrap, n);
    } else {
      SmallIs(x, wrap);
    }
  }

  /** When the number of targets divides the counter's range, any window at all. */
  lemma BalancedAlways(chosen: seq<nat>, start: nat, n: nat)
    requires n > 0 && WRAP % n == 0 && Consecutive(chosen, start, n)
    ensures Balanced(chosen, n, 1)
  {
    forall k | 0 <= k < |chosen| ensures chosen[k] == (start + k) % n {
      WrapDoesNotMatter(start + k, WRAP, n);
    }
    StraightIsBalanced(chosen, start, n);
  }

  function Window(start: nat, count: nat, n: nat): (chosen: seq<nat>)
    requires n > 0
    ensures |chosen| == count && Consecutive(chosen, start, n)
  {
    seq<nat>(count, (k: nat) => Target(start + k, n))
  }

  lemma {:induction false} UsesOfNone(chosen: seq<nat>, a: nat)
    requires a !in chosen
    ensures Uses(chosen, a) == 0
  {
    if chosen != [] {
      UsesOfNone(chosen[..|chosen| - 1], a);
    }
  }

  /** The counter values around the wrap that hold every small target twice. */
  lemma AroundWrap(wrap: nat, n: nat, r: nat, k: nat)
    requires wrap > 0 && n > 0 && r == wrap % n && k < r
    ensures r <= wrap && (wrap - r + k) % wrap % n == k && (wrap - r + (r + k)) % wrap % n == k
  {
    ModOfRest(wrap, n);
    SmallIs(wrap - r + k, wrap);
    RemainderIs(wrap - r + (r + k), wrap, 1, k);
    ModFirst(wrap - r, k, n);
    SmallIs(k, n);
  }

  lemma UsesOfRange(s: seq<nat>)
    requires |s| > 0 && forall k | 0 <= k < |s| :: s[k] == k
    ensures Uses(s, 0) == 1
  {
    UsesOfSum([0], s[1..], 0);
    UsesOfNone(s[1..], 0);
    assert [0] + s[1..] == s;
    assert Uses([0], 0) == 1;
  }

  lemma RoundTwice(chosen: seq<nat>, n: size_t, r: nat)
    requires n > 0 && r == WRAP % n && 0 < r && |chosen| == 2 * r && Consecutive(chosen, WRAP - r, n)
    ensures Uses(chosen, 0) == 2 && Uses(chosen, n - 1) == 0
  {
    var early, late := chosen[..r], chosen[r..];
    forall k | 0 <= k < r ensures early[k] == k && late[k] == k {
      AroundWrap(WRAP, n, r, k);
    }
    UsesOfRange(early);
    UsesOfRange(late);
    UsesOfSum(early, late, 0);
    UsesOfNone(early, n - 1);
    UsesOfNone(late, n - 1);
    UsesOfSum(early, late, n - 1);
    assert early + late == chosen;
  }

  /** Otherwise the window around the wrap uses the first target twice and the last not at all. */
  lemma UnevenAtWrap(n: size_t) returns (start: size_t, count: nat)
    requires n > 0 && WRAP % n != 0
    ensures count <= WRAP && !Balanced(Window(start, count, n), n, 1)
  {
    var r := WRAP % n;
    ModIsSmall(WRAP, n);
    start, count := WRAP - r, 2 * r;
    RoundTwice(Window(start, count, n), n, r);
  }

  /** Exactly when every window is even: the number of targets divides 2^64. */
  lemma EvenIff(n: size_t)
    requires n > 0
    ensures WRAP % n == 0 <==>
      forall start: size_t, count: nat | count <= WRAP :: Balanced(Window(start, count, n), n, 1)
  {
    if WRAP % n == 0 {
      forall start: size_t, count: nat | count <= WRAP ensures Balanced(Window(start, count, n), n, 1) {
        BalancedAlways(Window(start, count, n), start, n);
      }
    } else {
      var start, count := UnevenAtWrap(n);
    }
  }

  // ---- the two selectors ----

  /** Server: m_executors[m_nextExecutor++ % m_executors.size()]. */
  class ExecutorSelector {
    var nextExecutor: size_t
    const size: size_t
    var chosen: seq<nat>  // every selection so far

    ghost predicate Valid()
      reads this
    {
      size > 0 && nextExecutor == |chosen| % WRAP && Consecutive(chosen, 0, size)
    }

    constructor (size: size_t)
      requires size > 0
      ensures Valid() && this.size == size && chosen == []
    {
      this.size := size;
      nextExecutor := 0;
      chosen := [];
    }

    method SelectNextExecutor() returns (index: nat)
      requires Valid()
      modifies this
      ensures Valid() && index < size && chosen == old(chosen) + [index] && index == Target(|old(chosen)|, size)
      ensures |old(chosen)| < WRAP ==> index == |old(chosen)| % size
    {
      if |chosen| < WRAP { SmallIs(|chosen|, WRAP); }
      ModFirst(|chosen|, 1, WRAP);
      index := nextExecutor % size;
      chosen := chosen + [index];
      nextExecutor := (nextExecutor + 1) % WRAP;
    }
  }

  /** Client: m_channels[++m_nextChannel % m_channels.size()]. */
  class ChannelSelector {
    var nextChannel: size_t
    const size: size_t
    var chosen: seq<nat>  // every selection so far

    ghost predicate Valid()
      reads this
    {
      size > 0 && nextChannel == |chosen| % WRAP && Consecutive(chosen, 1, size)
    }

    constructor (size: size_t)
      requires size > 0
      ensures Valid() && this.size == size && chosen == []
    {
      this.size := size;
      nextChannel := 0;
      chosen := [];
    }

    method SelectNextChannel() returns (index: nat)
      requires Valid()
      modifies this
      ensures Valid() && index < size && chosen == old(chosen) + [index] && index == Target(1 + |old(chosen)|, size)
      ensures |old(chosen)| + 1 < WRAP ==> index == (|old(chosen)| + 1) % size
    {
      if |chosen| + 1 < WRAP { SmallIs(|chosen| + 1, WRAP); }
      ModFirst(|chosen|, 1, WRAP);
      nextChannel := (nextChannel + 1) % WRAP;
      index := nextChannel % size;
      chosen := chosen + [index];
    }
  }

  /** Which targets a selector has chosen: before the counter wraps, the k-th is k, or k + 1, modulo the
      number of targets. After 2^64 selections they begin again. */
  lemma SelectionsGoRound(chosen: seq<nat>, first: nat, n: nat, k: nat)
    requires n > 0 && Consecutive(chosen, first, n) && k < |chosen|
    ensures first + k < WRAP ==> chosen[k] == (first + k) % n
    ensures k + WRAP < |chosen| ==> chosen[k + WRAP] == chosen[k]
  {
    if first + k < WRAP { SmallIs(first + k, WRAP); }
    LessByOne(first + k + WRAP, WRAP);
  }

  /** Any stretch of what a selector chose is a window of its counter. */
  lemma StretchIsWindow(chosen: seq<nat>, first: nat, n: nat, i: nat, j: nat)
    requires n > 0 && Consecutive(chosen, first, n) && i <= j <= |chosen|
    ensures Consecutive(chosen[i..j], (first + i) % WRAP, n)
  {
    forall k | 0 <= k < j - i ensures chosen[i..j][k] == Target((first + i) % WRAP + k, n) {
      ModFirst(first + i, k, WRAP);
      assert chosen[i..j][k] == chosen[i + k];
    }
  }
}

/** The stalling phrases of `send_command_to_backend` in URL_Server/server.py
    (the nested `say_waiting_message`): while the generation service has not
    replied, pick a phrase at random among those not used since the last
    reset, speak it, and reset the used set once every phrase has been used. */
module Stalling {
  import opened Text

  const WaitingMessages: seq<string> := [
    "almost there",
    "still processing",
    "gathering information",
    "analyzing the data",
    "just a moment longer",
    "retrieving your results",
    "working on it",
    "processing your request",
    "nearly done",
    "getting there",
    "hold on a moment",
    "collecting the information",
    "compiling the results",
    "please wait a bit longer"
  ]

  /** `len(waiting_messages)`. */
  const PoolSize: nat := 14

  /** `[msg for msg in waiting_messages if msg not in used_messages]` */
  function Available(pool: seq<string>, used: set<string>): (r: seq<string>)
    ensures forall m :: m in r <==> m in pool && m !in used
  {
    if pool == [] then []
    else (if pool[0] in used then [] else [pool[0]]) + Available(pool[1..], used)
  }

  /** Picks `i` and `j` come between the same two resets. */
  predicate SameBlock(i: nat, j: nat)
  {
    i / PoolSize == j / PoolSize
  }

  /** No phrase is spoken twice between two resets. */
  predicate NoRepeatWithinBlock(spoken: seq<string>)
  {
    forall i, j :: 0 <= i < j < |spoken| && SameBlock(i, j) ==> spoken[i] != spoken[j]
  }

  lemma PoolDistinct()
    ensures |WaitingMessages| == PoolSize
    ensures Distinct(WaitingMessages)
  {
  }

  /** A duplicate-free sequence has as many distinct elements as positions. */
  lemma {:induction false} DistinctCard(s: seq<string>)
    requires Distinct(s)
    ensures |set m | m in s| == |s|
  {
    if s != [] {
      var rest := s[1..];
      assert Distinct(rest) by {
        forall i, j | 0 <= i < j < |rest|
          ensures rest[i] != rest[j]
        {
          assert rest[i] == s[i + 1] && rest[j] == s[j + 1];
        }
      }
      DistinctCard(rest);
      assert (set m | m in s) == (set m | m in rest) + {s[0]};
      assert s[0] !in (set m | m in rest);
    }
  }

  lemma {:induction false} SubsetCard(a: set<string>, b: set<string>)
    requires a <= b
    ensures |a| <= |b|
    ensures |a| == |b| ==> a == b
    decreases |a|
  {
    if a != {} {
      var x :| x in a;
      var a', b' := a - {x}, b - {x};
      assert a == a' + {x} && x !in a';
      assert b == b' + {x} && x !in b';
      SubsetCard(a', b');
    } else if |b| == 0 {
      assert b == {};
    }
  }

  /** While some phrase of a duplicate-free pool is unused, the list of
      candidates is not empty. */
  lemma AvailableNonEmpty(pool: seq<string>, current: set<string>)
    requires Distinct(pool)
    requires current <= (set m | m in pool) && |current| < |pool|
    ensures exists m :: m in Available(pool, current)
  {
    DistinctCard(pool);
    if forall m :: m !in Available(pool, current) {
      forall m | m in pool
        ensures m in current
      {
        assert m !in Available(pool, current);
      }
      SubsetCard((set m | m in pool), current);
    }
  }

  /** One pass of the loop body: reset the used set if every phrase is in
      it, choose among the phrases not in it (`random.choice` is a free
      choice here), and add the choice. The list it chooses from is never
      empty, so `random.choice` never raises. */
  method PickMessage(pool: seq<string>, used: set<string>) returns (message: string, used': set<string>)
    requires Distinct(pool) && |pool| > 0
    requires used <= (set m | m in pool)
    ensures message in pool
    ensures |used| == |pool| ==> used' == {message}
    ensures |used| != |pool| ==> message !in used && used' == used + {message}
  {
    var current := used;
    if |current| == |pool| {
      current := {};
    }
    var available := Available(pool, current);
    DistinctCard(pool);
    SubsetCard(current, set m | m in pool);
    assert |current| < |pool|;
    AvailableNonEmpty(pool, current);
    message :| message in available;
    used' := current + {message};
  }

  /** The picks `i` and `n` of one block lie in the window that starts at the
      block's first pick. */
  lemma SameBlockWindow(start: nat, i: nat, n: nat)
    requires start % PoolSize == 0 && start <= n < start + PoolSize
    requires i < n && SameBlock(i, n)
    ensures start <= i
  {
  }

  /** Appending a phrase absent from the current block keeps the blocks
      free of repeats. */
  lemma NoRepeatExtend(spoken: seq<string>, start: nat, message: string)
    requires NoRepeatWithinBlock(spoken)
    requires start % PoolSize == 0 && start <= |spoken| < start + PoolSize
    requires message !in spoken[start..]
    ensures NoRepeatWithinBlock(spoken + [message])
  {
    var n := |spoken|;
    var longer := spoken + [message];
    forall i, j | 0 <= i < j < |longer| && SameBlock(i, j)
      ensures longer[i] != longer[j]
    {
      if j == n {
        SameBlockWindow(start, i, n);
        assert longer[i] == spoken[start..][i - start];
      }
    }
  }

  lemma SetOfAppend(s: seq<string>, x: string)
    ensures (set m | m in s + [x]) == (set m | m in s) + {x}
  {
  }

  /** The bookkeeping of one round: the block that the new phrase joins
      (a fresh one if the current block is full), and the phrases spoken in
      it so far. */
  lemma NextBlock(spoken: seq<string>, start: nat, message: string) returns (start': nat)
    requires NoRepeatWithinBlock(spoken)
    requires start % PoolSize == 0 && start <= |spoken| <= start + PoolSize
    requires |spoken| - start < PoolSize ==> message !in spoken[start..]
    ensures start' == if |spoken| - start == PoolSize then |spoken| else start
    ensures start' % PoolSize == 0 && start' <= |spoken| + 1 <= start' + PoolSize
    ensures NoRepeatWithinBlock(spoken + [message])
    ensures (set m | m in (spoken + [message])[start'..]) ==
            if |spoken| - start == PoolSize then {message}
            else (set m | m in spoken[start..]) + {message}
  {
    start' := if |spoken| - start == PoolSize then |spoken| else start;
    assert (spoken + [message])[start'..] == spoken[start'..] + [message];
    if start' == |spoken| {
      assert spoken[start'..] == [];
    }
    NoRepeatExtend(spoken, start', message);
    SetOfAppend(spoken[start'..], message);
  }

  /** `say_waiting_message`, for a thread that finds the stop event unset
      `rounds` times, over a pool of `PoolSize` distinct phrases (the server
      passes `WaitingMessages`, see `PoolDistinct`): one phrase per round,
      every one from the pool, and none of them repeated between two resets. */
  method SayWaitingMessages(pool: seq<string>, rounds: nat) returns (spoken: seq<string>)
    requires Distinct(pool) && |pool| == PoolSize
    ensures |spoken| == rounds
    ensures forall i :: 0 <= i < |spoken| ==> spoken[i] in pool
    ensures NoRepeatWithinBlock(spoken)
  {
    var used: set<string> := {};
    spoken := [];
    ghost var start: nat := 0;
    while |spoken| < rounds
      invariant |spoken| <= rounds
      invariant forall i :: 0 <= i < |spoken| ==> spoken[i] in pool
      invariant NoRepeatWithinBlock(spoken)
      invariant start % PoolSize == 0 && start <= |spoken| <= start + PoolSize
      invariant used == set m | m in spoken[start..]
      invariant |used| == |spoken| - start
      decreases rounds - |spoken|
    {
      var message;
      message, used := PickMessage(pool, used);
      start := NextBlock(spoken, start, message);
      spoken := spoken + [message];
    }
  }

  /** Every complete block of picks uses each phrase of the pool exactly
      once: the pool is exhausted before any phrase comes back. */
  lemma {:induction false} BlockExhaustsPool(pool: seq<string>, spoken: seq<string>, k: nat)
    requires Distinct(pool) && |pool| == PoolSize
    requires forall i :: 0 <= i < |spoken| ==> spoken[i] in pool
    requires NoRepeatWithinBlock(spoken)
    requires (k + 1) * PoolSize <= |spoken|
    ensures forall m :: m in pool ==> m in spoken[k * PoolSize..(k + 1) * PoolSize]
  {
    var block := spoken[k * PoolSize..(k + 1) * PoolSize];
    assert Distinct(block) by {
      forall i, j | 0 <= i < j < |block|
        ensures block[i] != block[j]
      {
        assert SameBlock(k * PoolSize + i, k * PoolSize + j);
      }
    }
    DistinctCard(block);
    DistinctCard(pool);
    var inBlock, inPool := (set m | m in block), (set m | m in pool);
    assert inBlock <= inPool;
    assert (k + 1) * PoolSize == k * PoolSize + PoolSize;
    SubsetCard(inBlock, inPool);
    forall m | m in pool
      ensures m in block
    {
      assert m in inPool;
    }
  }
}

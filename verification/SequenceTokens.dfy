/** The token buffer of a sequence with its token counts (src/request/sequence.cpp): appending a
    sampled token, and validating draft tokens against the tokens of the target model. */
module SequenceTokens {
  import opened Collections

  /** `n` target tokens are accepted: none of them is rejected, all but the last agree with the draft
      and do not finish the sequence, and the next one is not accepted because it is rejected or
      because the last accepted one differs from the draft or finishes the sequence. */
  ghost predicate AcceptLaw(prefix: seq<int>, draft: seq<int>, target: seq<int>, finished: seq<int> -> bool, n: nat) {
    && Accepting(prefix, draft, target, finished, n)
    && (n < |target| ==>
        target[n] == -1 || (n > 0 && (target[n - 1] != draft[n - 1] || finished(prefix + target[..n]))))
  }

  class TokenBuffer {
    const ids: array<int>
    var num: nat
    var counts: multiset<int>
    var kvs: seq<nat>

    /** The counts are the histogram of the tokens in use. */
    ghost predicate Valid()
      reads this, ids
    {
      num <= ids.Length && counts == multiset(ids[..num])
    }

    constructor (prompt: seq<int>, capacity: nat, engines: nat)
      requires |prompt| <= capacity
      ensures Valid() && fresh(ids) && ids.Length == capacity && num == |prompt| && ids[..num] == prompt
      ensures kvs == seq(engines, k => 0)
    {
      ids := new int[capacity];
      num, counts, kvs := 0, multiset{}, seq(engines, k => 0);
      new;
      for i := 0 to |prompt|
        invariant Valid() && num == i && ids[..i] == prompt[..i] && kvs == seq(engines, k => 0)
      {
        Append(prompt[i]);
        assert prompt[..i + 1] == prompt[..i] + [prompt[i]];
      }
      assert prompt[..|prompt|] == prompt;
    }

    method Append(token: int)
      requires Valid() && num < ids.Length
      modifies this`num, this`counts, ids
      ensures Valid() && num == old(num) + 1 && ids[..num] == old(ids[..num]) + [token]
    {
      ids[num] := token;
      num := num + 1;
      counts := counts[token := counts[token] + 1];
      assert ids[..num] == old(ids[..num]) + [token];
    }

    /** The tokens in use. */
    ghost function Tokens(): seq<int>
      requires num <= ids.Length
      reads this, ids
    {
      ids[..num]
    }

    /** Replaces the last `|target|` tokens by the accepted target tokens.  The counts stay the histogram
        of the tokens, and no engine keeps KV for the last token or beyond.  The last check, that some
        token was accepted, passes exactly when the first target token is not a rejection. */
    method ValidateTokens(target: seq<int>, finished: seq<int> -> bool) returns (ok: bool, accepted: nat)
      requires Valid() && 0 < |target| < num && (target[|target| - 1] == -1 || target[|target| - 1] == ids[num - 1])
      modifies this, ids
      ensures Valid() && accepted <= |target| && num == old(num) - |target| + accepted
      ensures (ok <==> accepted > 0) && (ok <==> target[0] != -1)
      ensures Tokens() == old(Tokens()[..num - |target|]) + target[..accepted]
      ensures AcceptLaw(old(Tokens()[..num - |target|]), old(Tokens()[num - |target|..]), target, finished, accepted)
      ensures |kvs| == |old(kvs)| && forall k :: 0 <= k < |kvs| ==> kvs[k] == Min(old(kvs[k]), num - 1)
    {
      hide AcceptLaw;
      var start := num - |target|;
      ghost var prefix, draft := Tokens()[..start], Tokens()[start..];
      accepted := AcceptTokens(start, target, finished);
      SomeAccepted(prefix, draft, target, finished, accepted);
      Truncate(start + accepted);
      CapKvs();
      ok := accepted > 0;
    }

    /** Every engine's KV position is cut back below the last token. */
    method CapKvs()
      requires num > 0
      modifies this`kvs
      ensures |kvs| == |old(kvs)| && forall k :: 0 <= k < |kvs| ==> kvs[k] == Min(old(kvs[k]), num - 1)
    {
      var capped := [];
      for i := 0 to |kvs|
        invariant |capped| == i && forall k :: 0 <= k < i ==> capped[k] == Min(kvs[k], num - 1)
      {
        capped := capped + [Min(kvs[i], num - 1)];
      }
      kvs := capped;
    }

    /** The acceptance loop; the buffer keeps its length. */
    method AcceptTokens(start: nat, target: seq<int>, finished: seq<int> -> bool) returns (accepted: nat)
      requires Valid() && start + |target| == num
      modifies this`counts, ids
      ensures Valid() && accepted <= |target|
      ensures Tokens()[..start + accepted] == old(Tokens()[..start]) + target[..accepted]
      ensures AcceptLaw(old(Tokens()[..start]), old(Tokens()[start..]), target, finished, accepted)
    {
      hide Mixed, Accepting;
      ghost var prefix, draft := Tokens()[..start], Tokens()[start..];
      AcceptingNone(prefix, draft, target, finished);
      accepted := 0;
      var mismatch, done := false, false;
      MixedNone(Tokens(), start, target);
      while accepted < |target| && !done && !mismatch && target[accepted] != -1
        invariant Valid() && accepted <= |target| && Tokens() == Mixed(prefix, draft, target, accepted)
        invariant Accepting(prefix, draft, target, finished, accepted)
        invariant mismatch <==> accepted > 0 && target[accepted - 1] != draft[accepted - 1]
        invariant done <==> accepted > 0 && finished(prefix + target[..accepted])
        decreases |target| - accepted
      {
        mismatch, done := AcceptOne(start, target, finished, accepted, prefix, draft);
        AcceptingNext(prefix, draft, target, finished, accepted);
        accepted := accepted + 1;
      }
      MixedStart(prefix, draft, target, accepted);
    }

    /** Puts one target token in its place. */
    method AcceptOne(start: nat, target: seq<int>, finished: seq<int> -> bool, n: nat, ghost prefix: seq<int>,
                     ghost draft: seq<int>) returns (mismatch: bool, done: bool)
      requires Valid() && start + |target| == num && n < |target| == |draft| && |prefix| == start
        && Tokens() == Mixed(prefix, draft, target, n)
      modifies this`counts, ids
      ensures Valid() && Tokens() == Mixed(prefix, draft, target, n + 1)
      ensures (mismatch <==> target[n] != draft[n]) && (done <==> finished(prefix + target[..n + 1]))
    {
      hide Mixed;
      var at := start + n;
      ghost var before := Tokens();
      MixedNext(prefix, draft, target, n);
      assert ids[at] == before[at] == draft[n];
      mismatch := target[n] != ids[at];
      if mismatch {
        Overwrite(at, target[n]);
      }
      assert Tokens() == before[at := target[n]];
      assert ids[..at + 1] == Tokens()[..at + 1];
      done := finished(ids[..at + 1]);
    }

    /** Overwrites one token in use and adjusts the counts. */
    method Overwrite(at: nat, token: int)
      requires Valid() && at < num
      modifies this`counts, ids
      ensures Valid() && Tokens() == old(Tokens())[at := token]
    {
      ghost var was := ids[..num];
      assert was[at] in was;
      var draft := ids[at];
      ids[at] := token;
      counts := counts[draft := counts[draft] - 1];
      counts := counts[token := counts[token] + 1];
      assert ids[..num] == was[at := token];
    }

    /** Discards the tokens from `from` on, and takes them off the counts. */
    method Truncate(from: nat)
      requires Valid() && from <= num
      modifies this`counts, this`num
      ensures Valid() && num == from && Tokens() == old(Tokens()[..from])
    {
      Uncount(from);
      ghost var all := Tokens();
      num := from;
      assert Tokens() == all[..from];
    }

    method Uncount(from: nat)
      requires Valid() && from <= num
      modifies this`counts
      ensures counts == multiset(Tokens()[..from])
    {
      ghost var all := Tokens();
      CountParts(all, from);
      for i := from to num
        invariant counts == multiset(all[..from]) + multiset(all[i..])
      {
        CountNext(all, i, multiset(all[..from]));
        assert ids[i] == all[i];
        counts := counts[ids[i] := counts[ids[i]] - 1];
      }
    }
  }

  lemma SomeAccepted(prefix: seq<int>, draft: seq<int>, target: seq<int>, finished: seq<int> -> bool, n: nat)
    requires AcceptLaw(prefix, draft, target, finished, n) && target != []
    ensures n > 0 <==> target[0] != -1
  {
  }

  lemma CountParts(s: seq<int>, n: nat)
    requires n <= |s|
    ensures multiset(s) == multiset(s[..n]) + multiset(s[n..])
  {
    assert s == s[..n] + s[n..];
  }

  lemma CountNext(s: seq<int>, i: nat, kept: multiset<int>)
    requires i < |s|
    ensures var m := kept + multiset(s[i..]); m[s[i]] > 0 && m[s[i] := m[s[i]] - 1] == kept + multiset(s[i + 1..])
  {
    assert s[i..] == [s[i]] + s[i + 1..];
  }

  /** The first `n` draft tokens replaced by target tokens. */
  ghost function Mixed(prefix: seq<int>, draft: seq<int>, target: seq<int>, n: nat): seq<int>
    requires n <= |target| == |draft|
  {
    prefix + target[..n] + draft[n..]
  }

  lemma MixedNone(tokens: seq<int>, start: nat, target: seq<int>)
    requires start + |target| == |tokens|
    ensures Mixed(tokens[..start], tokens[start..], target, 0) == tokens
  {
  }

  lemma MixedStart(prefix: seq<int>, draft: seq<int>, target: seq<int>, n: nat)
    requires n <= |target| == |draft|
    ensures Mixed(prefix, draft, target, n)[..|prefix| + n] == prefix + target[..n]
  {
  }

  lemma AcceptingNone(prefix: seq<int>, draft: seq<int>, target: seq<int>, finished: seq<int> -> bool)
    requires |draft| == |target|
    ensures Accepting(prefix, draft, target, finished, 0)
  {
  }

  lemma AcceptingNext(prefix: seq<int>, draft: seq<int>, target: seq<int>, finished: seq<int> -> bool, n: nat)
    requires Accepting(prefix, draft, target, finished, n) && n < |target| && target[n] != -1
    requires n > 0 ==> target[n - 1] == draft[n - 1] && !finished(prefix + target[..n])
    ensures Accepting(prefix, draft, target, finished, n + 1)
  {
  }

  lemma MixedNext(prefix: seq<int>, draft: seq<int>, target: seq<int>, n: nat)
    requires n < |target| == |draft|
    ensures Mixed(prefix, draft, target, n)[|prefix| + n] == draft[n]
    ensures Mixed(prefix, draft, target, n + 1) == Mixed(prefix, draft, target, n)[|prefix| + n := target[n]]
    ensures Mixed(prefix, draft, target, n + 1)[..|prefix| + n + 1] == prefix + target[..n + 1]
  {
  }

  /** The target tokens before `n` are accepted, and all but the last of them go on. */
  ghost predicate Accepting(prefix: seq<int>, draft: seq<int>, target: seq<int>, finished: seq<int> -> bool, n: nat) {
    && n <= |target| == |draft|
    && (forall i :: 0 <= i < n ==> target[i] != -1)
    && (forall i :: 0 <= i < n - 1 ==> target[i] == draft[i] && !finished(prefix + target[..i + 1]))
  }

  /** The law leaves no choice: the target tokens, the draft and the stopping rule decide how many
      tokens are accepted. */
  lemma AcceptLawUnique(prefix: seq<int>, draft: seq<int>, target: seq<int>, finished: seq<int> -> bool, m: nat, n: nat)
    requires AcceptLaw(prefix, draft, target, finished, m) && AcceptLaw(prefix, draft, target, finished, n)
    ensures m == n
  {
    if m < n {
      NotFurther(prefix, draft, target, finished, m, n);
    } else if n < m {
      NotFurther(prefix, draft, target, finished, n, m);
    }
  }

  lemma NotFurther(prefix: seq<int>, draft: seq<int>, target: seq<int>, finished: seq<int> -> bool, m: nat, n: nat)
    requires AcceptLaw(prefix, draft, target, finished, m) && m < n
    ensures !AcceptLaw(prefix, draft, target, finished, n)
  {
    if m > 0 {
      var i := m - 1;
      assert i < n - 1 && target[..i + 1] == target[..m];
    }
  }
}

/** The timed wire actions of the registry (ActiveWireAction): what one
    Update tick does to one owner's list of pending actions. */
module Registry {
  import opened WireTypes

  /** A cancellation token, named by the token source that issued it. */
  type Token = nat
  /** The WireDoAfterEvent raised on the owner when the action finishes. */
  type FinishEvent = nat

  datatype ActiveWireAction = ActiveWireAction(id: DataKey, timeLeft: real, token: Token, onFinish: FinishEvent)

  /** One tick of one action: a cancelled action keeps its time, any other
      has frameTime taken off. */
  function Ticked(a: ActiveWireAction, cancelled: set<Token>, frameTime: real): (r: ActiveWireAction)
    ensures r.id == a.id && r.token == a.token && r.onFinish == a.onFinish
  {
    if a.token in cancelled then a else a.(timeLeft := a.timeLeft - frameTime)
  }

  /** An action finishes on this tick when it was cancelled or its time,
      once decreased, is no longer positive. */
  predicate Fires(a: ActiveWireAction, cancelled: set<Token>, frameTime: real)
  {
    a.token in cancelled || a.timeLeft - frameTime <= 0.0
  }

  /** The list after the scan: every action ticked, in place. */
  function TickAll(list: seq<ActiveWireAction>, cancelled: set<Token>, frameTime: real): (r: seq<ActiveWireAction>)
    ensures |r| == |list|
  {
    if list == [] then []
    else [Ticked(list[0], cancelled, frameTime)] + TickAll(list[1..], cancelled, frameTime)
  }

  /** The actions the scan adds to the finished list, ticked, in list order. */
  function FiredOf(list: seq<ActiveWireAction>, cancelled: set<Token>, frameTime: real): seq<ActiveWireAction>
  {
    if list == [] then []
    else
      (if Fires(list[0], cancelled, frameTime) then [Ticked(list[0], cancelled, frameTime)] else [])
        + FiredOf(list[1..], cancelled, frameTime)
  }

  /** The actions that stay pending, ticked, in list order. */
  function KeptOf(list: seq<ActiveWireAction>, cancelled: set<Token>, frameTime: real): seq<ActiveWireAction>
  {
    if list == [] then []
    else
      (if Fires(list[0], cancelled, frameTime) then [] else [Ticked(list[0], cancelled, frameTime)])
        + KeptOf(list[1..], cancelled, frameTime)
  }

  /** RemoveAll(action => action.CancelToken == token). */
  function WithoutToken(list: seq<ActiveWireAction>, token: Token): (r: seq<ActiveWireAction>)
    ensures |r| <= |list|
  {
    if list == [] then []
    else (if list[0].token == token then [] else [list[0]]) + WithoutToken(list[1..], token)
  }

  /** The list with every action whose token is in tokens removed. */
  function WithoutTokens(list: seq<ActiveWireAction>, tokens: set<Token>): seq<ActiveWireAction>
  {
    if list == [] then []
    else (if list[0].token in tokens then [] else [list[0]]) + WithoutTokens(list[1..], tokens)
  }

  function TokensOf(list: seq<ActiveWireAction>): set<Token>
  {
    if list == [] then {} else {list[0].token} + TokensOf(list[1..])
  }

  /** No two actions of the list share a token (every StartWireAction issues a fresh one). */
  predicate DistinctTokens(list: seq<ActiveWireAction>)
  {
    forall i, j :: 0 <= i < j < |list| ==> list[i].token != list[j].token
  }

  lemma {:induction false} WithoutTokenStep(list: seq<ActiveWireAction>, tokens: set<Token>, token: Token)
    ensures WithoutToken(WithoutTokens(list, tokens), token) == WithoutTokens(list, tokens + {token})
  {
    if list != [] {
      WithoutTokenStep(list[1..], tokens, token);
      var rest := WithoutTokens(list[1..], tokens);
      if list[0].token in tokens {
        assert WithoutTokens(list, tokens) == rest;
      } else {
        assert ([list[0]] + rest)[1..] == rest;
        if list[0].token == token {
          assert WithoutToken([list[0]] + rest, token) == WithoutToken(rest, token);
        }
      }
    }
  }

  /** The removal pass over one owner's finished actions, in order. */
  function RemoveAllOf(list: seq<ActiveWireAction>, finished: seq<ActiveWireAction>): seq<ActiveWireAction>
  {
    if finished == [] then list
    else WithoutToken(RemoveAllOf(list, finished[..|finished| - 1]), finished[|finished| - 1].token)
  }

  function TokensOfPrefix(finished: seq<ActiveWireAction>): set<Token>
  {
    if finished == [] then {} else TokensOfPrefix(finished[..|finished| - 1]) + {finished[|finished| - 1].token}
  }

  lemma {:induction false} WithoutNoTokens(list: seq<ActiveWireAction>)
    ensures WithoutTokens(list, {}) == list
  {
    if list != [] {
      WithoutNoTokens(list[1..]);
      assert [list[0]] + list[1..] == list;
    }
  }

  /** Removing the tokens one at a time, as the finished list is walked,
      removes exactly the actions holding any of them. */
  lemma {:induction false} RemoveEachToken(list: seq<ActiveWireAction>, finished: seq<ActiveWireAction>)
    ensures RemoveAllOf(list, finished) == WithoutTokens(list, TokensOfPrefix(finished))
  {
    if finished == [] {
      WithoutNoTokens(list);
    } else {
      var init := finished[..|finished| - 1];
      RemoveEachToken(list, init);
      WithoutTokenStep(list, TokensOfPrefix(init), finished[|finished| - 1].token);
    }
  }

  lemma {:induction false} TokensOfBoth(list: seq<ActiveWireAction>)
    ensures TokensOfPrefix(list) == TokensOf(list)
  {
    if list != [] {
      var init := list[..|list| - 1];
      TokensOfBoth(init);
      TokensOfAppend(init, [list[|list| - 1]]);
      assert init + [list[|list| - 1]] == list;
    }
  }

  lemma {:induction false} TokensOfAppend(a: seq<ActiveWireAction>, b: seq<ActiveWireAction>)
    ensures TokensOf(a + b) == TokensOf(a) + TokensOf(b)
  {
    if a != [] {
      TokensOfAppend(a[1..], b);
      assert (a + b)[1..] == a[1..] + b;
    } else {
      assert a + b == b;
    }
  }

  /** The fired actions' tokens are tokens of the list. */
  lemma {:induction false} FiredTokens(list: seq<ActiveWireAction>, cancelled: set<Token>, frameTime: real)
    ensures TokensOf(FiredOf(list, cancelled, frameTime)) <= TokensOf(list)
  {
    if list != [] {
      FiredTokens(list[1..], cancelled, frameTime);
      var head := if Fires(list[0], cancelled, frameTime) then [Ticked(list[0], cancelled, frameTime)] else [];
      TokensOfAppend(head, FiredOf(list[1..], cancelled, frameTime));
    }
  }

  lemma {:induction false} NotHeld(list: seq<ActiveWireAction>, token: Token)
    requires forall i :: 0 <= i < |list| ==> list[i].token != token
    ensures token !in TokensOf(list)
  {
    if list != [] {
      NotHeld(list[1..], token);
    }
  }

  /** Removing tokens that no action holds changes nothing. */
  lemma {:induction false} WithoutForeignTokens(list: seq<ActiveWireAction>, tokens: set<Token>, extra: set<Token>)
    requires extra !! TokensOf(list)
    ensures WithoutTokens(list, tokens + extra) == WithoutTokens(list, tokens)
  {
    if list != [] {
      WithoutForeignTokens(list[1..], tokens, extra);
    }
  }

  /** With distinct tokens, removing the finished actions' tokens from the
      ticked list leaves exactly the actions that did not fire. */
  lemma {:induction false} FilterFired(list: seq<ActiveWireAction>, cancelled: set<Token>, frameTime: real)
    requires DistinctTokens(list)
    ensures WithoutTokens(TickAll(list, cancelled, frameTime), TokensOf(FiredOf(list, cancelled, frameTime)))
         == KeptOf(list, cancelled, frameTime)
  {
    if list != [] {
      var rest := list[1..];
      var a := Ticked(list[0], cancelled, frameTime);
      var t := TickAll(rest, cancelled, frameTime);
      var f := FiredOf(rest, cancelled, frameTime);
      assert DistinctTokens(rest);
      FilterFired(rest, cancelled, frameTime);
      FiredTokens(rest, cancelled, frameTime);
      forall i | 0 <= i < |rest|
        ensures rest[i].token != list[0].token
      {
        assert rest[i] == list[i + 1];
      }
      NotHeld(rest, list[0].token);
      assert ([a] + t)[1..] == t;
      TickedTokens(rest, cancelled, frameTime);
      if Fires(list[0], cancelled, frameTime) {
        TokensOfAppend([a], f);
        assert TokensOf([a]) == {a.token} by {
          assert [a][1..] == [];
        }
        WithoutForeignTokens(t, TokensOf(f), {a.token});
        assert TokensOf(f) + {a.token} == TokensOf([a] + f);
      } else {
        assert FiredOf(list, cancelled, frameTime) == f;
        assert a.token !in TokensOf(f);
        assert WithoutTokens([a] + t, TokensOf(f)) == [a] + WithoutTokens(t, TokensOf(f));
      }
    }
  }

  lemma {:induction false} TickedTokens(list: seq<ActiveWireAction>, cancelled: set<Token>, frameTime: real)
    ensures TokensOf(TickAll(list, cancelled, frameTime)) == TokensOf(list)
  {
    if list != [] {
      TickedTokens(list[1..], cancelled, frameTime);
      TokensOfAppend([Ticked(list[0], cancelled, frameTime)], TickAll(list[1..], cancelled, frameTime));
    }
  }

  /** With distinct tokens, the removal pass over the finished actions
      leaves exactly the actions that did not fire, in order. */
  lemma RemovalLeavesKept(list: seq<ActiveWireAction>, cancelled: set<Token>, frameTime: real)
    requires DistinctTokens(list)
    ensures RemoveAllOf(TickAll(list, cancelled, frameTime), FiredOf(list, cancelled, frameTime))
         == KeptOf(list, cancelled, frameTime)
  {
    var fired := FiredOf(list, cancelled, frameTime);
    RemoveEachToken(TickAll(list, cancelled, frameTime), fired);
    TokensOfBoth(fired);
    FilterFired(list, cancelled, frameTime);
  }

  lemma {:induction false} TickAllElements(list: seq<ActiveWireAction>, cancelled: set<Token>, frameTime: real)
    ensures forall i :: 0 <= i < |list| ==> TickAll(list, cancelled, frameTime)[i] == Ticked(list[i], cancelled, frameTime)
  {
    if list != [] {
      TickAllElements(list[1..], cancelled, frameTime);
    }
  }

  /** The scan splits the ticked list: every action either finishes (listed
      in FiredOf) or stays pending (listed in KeptOf), never both. */
  lemma {:induction false} ScanPartition(list: seq<ActiveWireAction>, cancelled: set<Token>, frameTime: real)
    ensures multiset(FiredOf(list, cancelled, frameTime)) + multiset(KeptOf(list, cancelled, frameTime))
         == multiset(TickAll(list, cancelled, frameTime))
  {
    if list != [] {
      ScanPartition(list[1..], cancelled, frameTime);
    }
  }

  /** Action i is listed as finished when it fires and as pending otherwise;
      a pending action was not cancelled and has time left. */
  lemma {:induction false} ScanSorts(list: seq<ActiveWireAction>, cancelled: set<Token>, frameTime: real, i: nat)
    requires i < |list|
    ensures Fires(list[i], cancelled, frameTime) ==> Ticked(list[i], cancelled, frameTime) in FiredOf(list, cancelled, frameTime)
    ensures !Fires(list[i], cancelled, frameTime) ==> Ticked(list[i], cancelled, frameTime) in KeptOf(list, cancelled, frameTime)
  {
    if i > 0 {
      ScanSorts(list[1..], cancelled, frameTime, i - 1);
    }
  }

  lemma {:induction false} KeptPending(list: seq<ActiveWireAction>, cancelled: set<Token>, frameTime: real)
    ensures forall a :: a in KeptOf(list, cancelled, frameTime) ==> a.token !in cancelled && a.timeLeft > 0.0
  {
    if list != [] {
      KeptPending(list[1..], cancelled, frameTime);
    }
  }

  /** The token of every action of a list is among the list's tokens. */
  lemma {:induction false} Held(list: seq<ActiveWireAction>, i: nat)
    requires i < |list|
    ensures list[i].token in TokensOf(list)
  {
    if i > 0 {
      Held(list[1..], i - 1);
    }
  }

  /** Every action that fires was on the list, so the fired actions carry
      distinct tokens when the list's are. */
  lemma {:induction false} FiredDistinct(list: seq<ActiveWireAction>, cancelled: set<Token>, frameTime: real)
    requires DistinctTokens(list)
    ensures DistinctTokens(FiredOf(list, cancelled, frameTime))
  {
    if list != [] {
      var rest := list[1..];
      var f := FiredOf(rest, cancelled, frameTime);
      assert DistinctTokens(rest);
      FiredDistinct(rest, cancelled, frameTime);
      if Fires(list[0], cancelled, frameTime) {
        forall i | 0 <= i < |rest| ensures rest[i].token != list[0].token {
          assert rest[i] == list[i + 1];
        }
        NotHeld(rest, list[0].token);
        FiredTokens(rest, cancelled, frameTime);
        forall j | 0 <= j < |f| ensures f[j].token != list[0].token {
          Held(f, j);
        }
      }
    }
  }

  /** The actions kept pending are actions of the list, so the kept actions
      carry distinct tokens when the list's are. */
  lemma {:induction false} KeptTokens(list: seq<ActiveWireAction>, cancelled: set<Token>, frameTime: real)
    requires DistinctTokens(list)
    ensures TokensOf(KeptOf(list, cancelled, frameTime)) <= TokensOf(list)
    ensures DistinctTokens(KeptOf(list, cancelled, frameTime))
  {
    if list != [] {
      var rest := list[1..];
      var k := KeptOf(rest, cancelled, frameTime);
      assert DistinctTokens(rest);
      KeptTokens(rest, cancelled, frameTime);
      assert TokensOf(list) == {list[0].token} + TokensOf(rest);
      if Fires(list[0], cancelled, frameTime) {
        assert KeptOf(list, cancelled, frameTime) == k;
      } else {
        var a := Ticked(list[0], cancelled, frameTime);
        assert KeptOf(list, cancelled, frameTime) == [a] + k;
        TokensOfAppend([a], k);
        assert TokensOf([a]) == {a.token} by {
          assert [a][1..] == [];
        }
        forall i | 0 <= i < |rest| ensures rest[i].token != list[0].token {
          assert rest[i] == list[i + 1];
        }
        NotHeld(rest, list[0].token);
        forall j | 0 <= j < |k| ensures k[j].token != a.token {
          Held(k, j);
        }
      }
    }
  }

  /** An action whose token is not removed survives the removal. */
  lemma {:induction false} KeepsForeign(list: seq<ActiveWireAction>, tokens: set<Token>, t: Token)
    requires t in TokensOf(list) && t !in tokens
    ensures WithoutTokens(list, tokens) != []
  {
    if list[0].token != t {
      KeepsForeign(list[1..], tokens, t);
    }
  }

  lemma {:induction false} TickAllAppend(a: seq<ActiveWireAction>, b: seq<ActiveWireAction>, cancelled: set<Token>, frameTime: real)
    ensures TickAll(a + b, cancelled, frameTime) == TickAll(a, cancelled, frameTime) + TickAll(b, cancelled, frameTime)
  {
    if a != [] {
      TickAllAppend(a[1..], b, cancelled, frameTime);
      assert (a + b)[1..] == a[1..] + b;
    } else {
      assert a + b == b;
    }
  }

  lemma {:induction false} FiredOfAppend(a: seq<ActiveWireAction>, b: seq<ActiveWireAction>, cancelled: set<Token>, frameTime: real)
    ensures FiredOf(a + b, cancelled, frameTime) == FiredOf(a, cancelled, frameTime) + FiredOf(b, cancelled, frameTime)
  {
    if a != [] {
      FiredOfAppend(a[1..], b, cancelled, frameTime);
      assert (a + b)[1..] == a[1..] + b;
    } else {
      assert a + b == b;
    }
  }

  /** Appending an action with a fresh token keeps the tokens distinct and adds that token. */
  lemma AddFresh(list: seq<ActiveWireAction>, a: ActiveWireAction)
    requires DistinctTokens(list) && a.token !in TokensOf(list)
    ensures DistinctTokens(list + [a])
    ensures TokensOf(list + [a]) == TokensOf(list) + {a.token}
  {
    TokensOfAppend(list, [a]);
    assert TokensOf([a]) == {a.token} by {
      assert [a][1..] == [];
    }
    forall i | 0 <= i < |list| ensures list[i].token != a.token {
      Held(list, i);
    }
  }
}

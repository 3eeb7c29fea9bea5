/** How the lease counts and the exclusive table follow the unreleased tokens. */
module LeaseBooks {
  import opened Leases
  import opened LeaseInvariant
  import opened LeaseWire

  // ---------- the books ----------

  ghost predicate SameOwners(s: State, r: State) {
    && (forall t :: OwnerOf(r, t) == OwnerOf(s, t))
    && (forall t | t in r.acquisitions || t in r.leases ::
          (t in s.acquisitions || t in s.leases) && ModeOf(r, t) == ModeOf(s, t))
  }

  lemma BooksFrame(s: State, r: State)
    requires Books(s) && SameOwners(s, r) && r.counts == s.counts && r.exclusive == s.exclusive
    ensures Books(r)
  {
    forall id ensures Tokens(r, id) == Tokens(s, id) && Count(r, id) == Count(s, id) {
      forall t ensures t in Tokens(r, id) <==> t in Tokens(s, id) {
        assert OwnerOf(r, t) == OwnerOf(s, t);
      }
    }
  }

  /** Only token `t` may have another owner in `r`. */
  ghost predicate OthersKept(s: State, r: State, t: Token) {
    && (forall u | u != t :: OwnerOf(r, u) == OwnerOf(s, u))
    && (forall u | u != t && (u in r.acquisitions || u in r.leases) ::
          (u in s.acquisitions || u in s.leases) && ModeOf(r, u) == ModeOf(s, u))
  }

  lemma TokensAdd(s: State, r: State, t: Token, id: SessionId)
    requires OthersKept(s, r, t) && OwnerOf(s, t) == Nobody && OwnerOf(r, t) == Session(id)
    ensures t !in Tokens(s, id)
    ensures forall i :: Tokens(r, i) == if i == id then Tokens(s, i) + {t} else Tokens(s, i)
  {
    forall i ensures Tokens(r, i) == if i == id then Tokens(s, i) + {t} else Tokens(s, i) {
      forall u ensures u in Tokens(r, i) <==> u in (if i == id then Tokens(s, i) + {t} else Tokens(s, i)) {
        assert u != t ==> OwnerOf(r, u) == OwnerOf(s, u);
      }
    }
  }

  /** Token `t` of session `id` is new in `r`. */
  lemma BooksAdd(s: State, r: State, t: Token, id: SessionId, mode: Mode)
    requires Books(s) && CanReserve(s, id, mode)
    requires t in r.acquisitions || t in r.leases
    requires OwnerOf(s, t) == Nobody && OwnerOf(r, t) == Session(id) && ModeOf(r, t) == mode
    requires OthersKept(s, r, t)
    requires r.counts == s.counts[id := Count(s, id) + 1]
    requires r.exclusive == if mode == Exclusive then s.exclusive[id := t] else s.exclusive
    ensures Books(r)
  {
    TokensAdd(s, r, t, id);
    assert Accounting(r) by {
      forall i ensures Count(r, i) == |Tokens(r, i)| && (i in r.counts ==> r.counts[i] > 0) {
        assert Count(s, i) == |Tokens(s, i)|;
      }
    }
    assert mode == Exclusive ==> Tokens(s, id) == {} by {
      assert Count(s, id) == |Tokens(s, id)|;
    }
    assert Ownership(r) by { OwnershipAdd(s, r, t, id, mode); }
  }

  lemma OwnershipAdd(s: State, r: State, t: Token, id: SessionId, mode: Mode)
    requires Ownership(s) && (mode == Shared ==> id !in s.exclusive)
    requires t in r.acquisitions || t in r.leases
    requires OwnerOf(s, t) == Nobody && OwnerOf(r, t) == Session(id) && ModeOf(r, t) == mode
    requires OthersKept(s, r, t)
    requires forall i :: Tokens(r, i) == if i == id then Tokens(s, i) + {t} else Tokens(s, i)
    requires mode == Exclusive ==> Tokens(s, id) == {}
    requires r.exclusive == if mode == Exclusive then s.exclusive[id := t] else s.exclusive
    ensures Ownership(r)
  {
    forall u | (u in r.acquisitions || u in r.leases) && OwnerOf(r, u).Session? && ModeOf(r, u) == Exclusive
      ensures OwnerOf(r, u).id in r.exclusive && r.exclusive[OwnerOf(r, u).id] == u
    {
      if u != t {
        assert OwnerOf(s, u) == OwnerOf(r, u) && ModeOf(s, u) == Exclusive;
        assert u in Tokens(s, OwnerOf(s, u).id);
      }
    }
    forall i | i in r.exclusive ensures Tokens(r, i) == {r.exclusive[i]} {
      if i != id { assert i in s.exclusive; }
    }
  }

  lemma TokensDrop(s: State, r: State, t: Token, id: SessionId)
    requires OthersKept(s, r, t) && OwnerOf(s, t) == Session(id) && OwnerOf(r, t) == Nobody
    ensures t in Tokens(s, id)
    ensures forall i :: Tokens(r, i) == if i == id then Tokens(s, i) - {t} else Tokens(s, i)
  {
    forall i ensures Tokens(r, i) == if i == id then Tokens(s, i) - {t} else Tokens(s, i) {
      forall u ensures u in Tokens(r, i) <==> u in (if i == id then Tokens(s, i) - {t} else Tokens(s, i)) {
        assert u != t ==> OwnerOf(r, u) == OwnerOf(s, u);
      }
    }
  }

  /** Token `t` of session `id` is given back. */
  lemma BooksDrop(s: State, r: State, t: Token, id: SessionId)
    requires Books(s) && OthersKept(s, r, t)
    requires OwnerOf(s, t) == Session(id) && OwnerOf(r, t) == Nobody
    requires r.counts == Unreserved(s, id, t).counts
    requires r.exclusive == Unreserved(s, id, t).exclusive
    ensures Books(r)
  {
    TokensDrop(s, r, t, id);
    assert Accounting(r) by {
      forall i ensures Count(r, i) == |Tokens(r, i)| && (i in r.counts ==> r.counts[i] > 0) {
        assert Count(s, i) == |Tokens(s, i)|;
      }
    }
    assert Ownership(r) by { OwnershipDrop(s, r, t, id); }
  }

  lemma OwnershipDrop(s: State, r: State, t: Token, id: SessionId)
    requires Ownership(s) && OthersKept(s, r, t)
    requires t in Tokens(s, id) && OwnerOf(r, t) == Nobody
    requires forall i :: Tokens(r, i) == if i == id then Tokens(s, i) - {t} else Tokens(s, i)
    requires r.exclusive == Unreserved(s, id, t).exclusive
    ensures Ownership(r)
  {
    if id in s.exclusive {
      assert Tokens(s, id) == {s.exclusive[id]};
    }
    forall u | (u in r.acquisitions || u in r.leases) && OwnerOf(r, u).Session? && ModeOf(r, u) == Exclusive
      ensures OwnerOf(r, u).id in r.exclusive && r.exclusive[OwnerOf(r, u).id] == u
    {
      assert OwnerOf(r, u) == OwnerOf(s, u);
    }
  }

  ghost predicate Cleared(s: State, r: State, id: SessionId) {
    forall t :: OwnerOf(r, t) == if OwnerOf(s, t) == Session(id) then Nobody else OwnerOf(s, t)
  }

  lemma TokensClear(s: State, r: State, id: SessionId)
    requires Cleared(s, r, id)
    ensures forall i :: Tokens(r, i) == if i == id then {} else Tokens(s, i)
  {
    forall i ensures Tokens(r, i) == if i == id then {} else Tokens(s, i) {
      forall u ensures u in Tokens(r, i) <==> u in (if i == id then {} else Tokens(s, i)) {
        assert OwnerOf(r, u) == if OwnerOf(s, u) == Session(id) then Nobody else OwnerOf(s, u);
      }
    }
  }

  /** Nobody owns a token of session `id` in `r`; elsewhere nothing changed. */
  lemma BooksClear(s: State, r: State, id: SessionId)
    requires Books(s) && Cleared(s, r, id)
    requires r.acquisitions == s.acquisitions && r.leases == s.leases
    requires r.counts == s.counts - {id} && r.exclusive == s.exclusive - {id}
    ensures Books(r)
  {
    TokensClear(s, r, id);
    assert Accounting(r) by {
      forall i ensures Count(r, i) == |Tokens(r, i)| && (i in r.counts ==> r.counts[i] > 0) {
        assert Count(s, i) == |Tokens(s, i)|;
      }
    }
    assert Ownership(r) by { OwnershipClear(s, r, id); }
  }

  lemma OwnershipClear(s: State, r: State, id: SessionId)
    requires Ownership(s) && Cleared(s, r, id)
    requires r.acquisitions == s.acquisitions && r.leases == s.leases && r.exclusive == s.exclusive - {id}
    requires forall i :: Tokens(r, i) == if i == id then {} else Tokens(s, i)
    ensures Ownership(r)
  {}

  lemma BooksEmpty(s: State, r: State)
    requires Books(s) && (forall t :: OwnerOf(r, t) == Nobody)
    requires r.counts == map[] && r.exclusive == s.exclusive - s.counts.Keys
    ensures Books(r)
  {
    forall i ensures Tokens(r, i) == {} {}
    forall i | i in s.exclusive ensures i in s.counts {
      assert Count(s, i) == |Tokens(s, i)|;
      assert Tokens(s, i) == {s.exclusive[i]};
    }
    assert r.exclusive == map[];
  }

  lemma CountHolds(s: State, t: Token, id: SessionId)
    requires Accounting(s) && OwnerOf(s, t) == Session(id)
    ensures id in s.counts && Count(s, id) > 0
    ensures Count(s, id) <= 1 ==> Alone(s, t, id)
  {
    assert t in Tokens(s, id);
    assert Count(s, id) == |Tokens(s, id)|;
    assert |Tokens(s, id) - {t}| == |Tokens(s, id)| - 1;
    if Count(s, id) <= 1 {
      assert Tokens(s, id) - {t} == {};
      forall u | u != t ensures OwnerOf(s, u) != Session(id) {
        assert u !in Tokens(s, id) - {t};
      }
    }
  }

  lemma ExclusiveCounted(s: State, id: SessionId)
    requires Books(s)
    ensures id in s.exclusive ==> Count(s, id) == 1
  {
    if id in s.exclusive {
      assert Count(s, id) == |Tokens(s, id)|;
      assert Tokens(s, id) == {s.exclusive[id]};
    }
  }
}

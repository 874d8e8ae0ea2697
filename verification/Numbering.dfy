/** Numbers handed out per owner, each one past the largest so far: attempt generations and phase ordinals. */
module Numbering {

  /** Each key with its owner and its number. */
  type Numbered = map<string, (string, int)>

  ghost function Members(m: Numbered, owner: string): set<string> {
    set k | k in m && m[k].0 == owner
  }

  ghost predicate Handed(m: Numbered, owner: string, number: int) {
    exists k :: k in m && m[k] == (owner, number)
  }

  /** `k` carries the largest number its owner has handed out. */
  ghost predicate Highest(m: Numbered, owner: string, k: string) {
    k in m && m[k].0 == owner && forall j :: j in m && m[j].0 == owner ==> m[j].1 <= m[k].1
  }

  /** The largest number of the owner, or zero when there is none. */
  ghost function Largest(m: Numbered, owner: string): (g: int)
    ensures forall k :: k in m && m[k].0 == owner ==> m[k].1 <= g
    ensures Handed(m, owner, g) || (g == 0 && forall k :: k in m ==> m[k].0 != owner)
  {
    if exists k :: k in m && m[k].0 == owner then
      var k :| k in m && m[k].0 == owner;
      HighestExists(m, owner, Members(m, owner), k);
      var k :| Highest(m, owner, k);
      m[k].1
    else 0
  }

  lemma {:induction false} HighestExists(m: Numbered, owner: string, among: set<string>, x: string)
    requires x in among && among <= Members(m, owner)
    ensures exists k :: k in among && forall j :: j in among ==> m[j].1 <= m[k].1
    ensures among == Members(m, owner) ==> exists k :: Highest(m, owner, k)
  {
    var rest := among - {x};
    var top := x;
    if y :| y in rest {
      HighestExists(m, owner, rest, y);
      var k :| k in rest && forall j :: j in rest ==> m[j].1 <= m[k].1;
      if m[x].1 < m[k].1 { top := k; }
    }
    assert forall j :: j in among ==> j == x || j in rest;
    if among == Members(m, owner) {
      forall j | j in m && m[j].0 == owner ensures m[j].1 <= m[top].1 {
        assert j in Members(m, owner);
      }
      assert Highest(m, owner, top);
    }
  }

  /** A bound that is reached, or zero for an owner without members, is the largest number. */
  lemma LargestIs(m: Numbered, owner: string, g: int)
    requires forall k :: k in m && m[k].0 == owner ==> m[k].1 <= g
    requires Handed(m, owner, g) || (g == 0 && forall k :: k in m ==> m[k].0 != owner)
    ensures Largest(m, owner) == g
  {
    if Handed(m, owner, Largest(m, owner)) {
      var k :| k in m && m[k] == (owner, Largest(m, owner));
    }
    if Handed(m, owner, g) {
      var k :| k in m && m[k] == (owner, g);
    }
  }

  /** The owner's numbers are exactly 1..n for its n members. */
  ghost predicate Contiguous(m: Numbered, owner: string) {
    forall g :: Handed(m, owner, g) <==> 1 <= g <= |Members(m, owner)|
  }

  /** Two members of one owner never share a number. */
  ghost predicate Distinct(m: Numbered) {
    forall j, k :: j in m && k in m && m[j] == m[k] ==> j == k
  }

  lemma LargestIsCount(m: Numbered, owner: string)
    requires Contiguous(m, owner)
    ensures Largest(m, owner) == |Members(m, owner)|
  {
    var n := |Members(m, owner)|;
    if n > 0 {
      assert Handed(m, owner, n);
    } else {
      forall k | k in m ensures m[k].0 != owner {
        assert k !in Members(m, owner);
      }
    }
  }

  lemma HandedAfter(m: Numbered, k: string, entry: (string, int), owner: string, g: int)
    requires k !in m
    ensures Handed(m[k := entry], owner, g) <==> Handed(m, owner, g) || entry == (owner, g)
  {
    var m' := m[k := entry];
    if Handed(m, owner, g) {
      var j :| j in m && m[j] == (owner, g);
      assert m'[j] == (owner, g);
    }
    if entry == (owner, g) {
      assert m'[k] == (owner, g);
    }
  }

  lemma AddNext(m: Numbered, k: string, owner: string)
    requires k !in m && Contiguous(m, owner)
    ensures Contiguous(m[k := (owner, Largest(m, owner) + 1)], owner)
  {
    LargestIsCount(m, owner);
    var entry := (owner, Largest(m, owner) + 1);
    var m' := m[k := entry];
    assert Members(m', owner) == Members(m, owner) + {k};
    forall g ensures Handed(m', owner, g) <==> 1 <= g <= |Members(m, owner)| + 1 {
      HandedAfter(m, k, entry, owner, g);
    }
  }

  lemma AddElsewhere(m: Numbered, k: string, entry: (string, int), owner: string)
    requires k !in m && Contiguous(m, owner) && entry.0 != owner
    ensures Contiguous(m[k := entry], owner)
  {
    var m' := m[k := entry];
    assert Members(m', owner) == Members(m, owner);
    forall g ensures Handed(m', owner, g) <==> 1 <= g <= |Members(m, owner)| {
      HandedAfter(m, k, entry, owner, g);
    }
  }

  /** Handing out the next number keeps every owner's numbers contiguous and distinct. */
  lemma NextKeepsNumbering(m: Numbered, k: string, owner: string)
    requires k !in m && Distinct(m) && forall o :: Contiguous(m, o)
    ensures var m' := m[k := (owner, Largest(m, owner) + 1)];
            Distinct(m') && forall o :: Contiguous(m', o)
  {
    var m' := m[k := (owner, Largest(m, owner) + 1)];
    AddNext(m, k, owner);
    forall o ensures Contiguous(m', o) {
      if o != owner {
        AddElsewhere(m, k, m'[k], o);
      }
    }
  }
}

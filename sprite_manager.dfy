/** The sprite list of a level and its pool of free UIDs
    (tsc/src/core/sprite_manager.cpp). */
module SpriteManager {
  import opened Common

  /** A managed sprite: `id` stands for the object's identity (its address),
      the other fields are the members the manager reads and writes. Z
      positions are floating point and not modelled. */
  datatype Sprite = Sprite(id: nat, uid: int, autoDestroy: bool, disallowManagedDelete: bool)

  /** The elements of a sorted UID pool (`std::set<int>`) as a set. */
  function Elems(s: seq<int>): (r: set<int>)
    ensures forall x :: x in r <==> x in s
  {
    set x | x in s
  }

  predicate Increasing(s: seq<int>)
  {
    forall i, j :: 0 <= i < j < |s| ==> s[i] < s[j]
  }

  /** `std::set::insert` on the sorted pool. */
  function Insert(s: seq<int>, x: int): (r: seq<int>)
    requires Increasing(s)
    ensures Increasing(r) && Elems(r) == Elems(s) + {x}
  {
    if s == [] then [x]
    else if x < s[0] then [x] + s
    else if x == s[0] then s
    else
      var rest := Insert(s[1..], x);
      InsertBehindHead(s, x, rest);
      [s[0]] + rest
  }

  /** The head of an increasing pool stays in front of an insertion above
      it into the tail. */
  lemma InsertBehindHead(s: seq<int>, x: int, rest: seq<int>)
    requires Increasing(s) && s != [] && s[0] < x
    requires Increasing(rest) && Elems(rest) == Elems(s[1..]) + {x}
    ensures Increasing([s[0]] + rest) && Elems([s[0]] + rest) == Elems(s) + {x}
  {
    assert Elems(s) == {s[0]} + Elems(s[1..]);
    assert forall k :: 0 <= k < |rest| ==> rest[k] in Elems(s[1..]) + {x};
  }

  /** `std::set::erase(value)` on the sorted pool. */
  function Erase(s: seq<int>, x: int): (r: seq<int>)
    requires Increasing(s)
    ensures Increasing(r) && Elems(r) == Elems(s) - {x}
  {
    if s == [] then []
    else if s[0] == x then
      assert Elems(s) == {s[0]} + Elems(s[1..]);
      assert x !in Elems(s[1..]);
      s[1..]
    else
      var rest := Erase(s[1..], x);
      assert Elems(s) == {s[0]} + Elems(s[1..]);
      assert forall k :: 0 <= k < |rest| ==> rest[k] in rest;
      assert forall k :: 0 <= k < |rest| ==> rest[k] in s[1..];
      [s[0]] + rest
  }

  /** The integers in [lo, hi). */
  function Range(lo: int, hi: int): (r: set<int>)
    ensures forall i :: i in r <==> lo <= i < hi
    decreases hi - lo
  {
    if lo >= hi then {} else {lo} + Range(lo + 1, hi)
  }

  /** Appending a value above every element keeps a pool increasing. */
  lemma AppendAbove(s: seq<int>, x: int)
    requires Increasing(s) && forall y :: y in s ==> y < x
    ensures Increasing(s + [x]) && Elems(s + [x]) == Elems(s) + {x}
  {
    assert forall k :: 0 <= k < |s| ==> s[k] in s;
  }

  lemma RangeStep(lo: int, hi: int)
    requires lo <= hi
    ensures Range(lo, hi + 1) == Range(lo, hi) + {hi}
  {
  }

  /** The insertion loop of `Allocate_UIDs`: the UIDs `lo` up to `hi`,
      all above the pool's, join it in order. */
  method AppendRange(pool: seq<int>, lo: int, hi: int) returns (r: seq<int>)
    requires 1 <= lo <= hi && Increasing(pool) && forall x :: x in pool ==> 1 <= x < lo
    ensures Increasing(r) && forall x :: x in r ==> 1 <= x < hi
    ensures Elems(r) == Elems(pool) + Range(lo, hi)
  {
    r := pool;
    var i := lo;
    while i < hi
      invariant lo <= i <= hi
      invariant Increasing(r)
      invariant forall x :: x in r ==> 1 <= x < i
      invariant Elems(r) == Elems(pool) + Range(lo, i)
    {
      AppendAbove(r, i);
      RangeStep(lo, i);
      r := r + [i];
      i := i + 1;
    }
  }

  /** The index of the first sprite whose auto-destroy flag is set. */
  function FirstDestroyed(objs: seq<Sprite>): (r: Option<nat>)
    ensures r.Some? ==> r.value < |objs| && objs[r.value].autoDestroy
    ensures r.Some? ==> forall j :: 0 <= j < r.value ==> !objs[j].autoDestroy
    ensures r.None? ==> forall j :: 0 <= j < |objs| ==> !objs[j].autoDestroy
  {
    if objs == [] then None
    else if objs[0].autoDestroy then Some(0)
    else match FirstDestroyed(objs[1..])
      case None => None
      case Some(k) => Some(k + 1)
  }

  /** The index of the first occurrence of the sprite object `id`. */
  function IndexOf(objs: seq<Sprite>, id: nat): (r: Option<nat>)
    ensures r.Some? ==> r.value < |objs| && objs[r.value].id == id
    ensures r.Some? ==> forall j :: 0 <= j < r.value ==> objs[j].id != id
    ensures r.None? ==> forall j :: 0 <= j < |objs| ==> objs[j].id != id
  {
    if objs == [] then None
    else if objs[0].id == id then Some(0)
    else match IndexOf(objs[1..], id)
      case None => None
      case Some(k) => Some(k + 1)
  }

  class SpriteManager {
    /** The managed sprites, in drawing order. */
    var objects: seq<Sprite>
    /** The UIDs below the mark that are free, sorted like `std::set<int>`. */
    var pool: seq<int>
    /** Every UID at or above the mark is free and not yet in the pool. */
    var maxUidMark: int

    /** UID 0 is reserved, every pooled UID lies in [1, mark), the mark stays
        below INT_MAX, and every managed sprite carries an allocated UID. */
    ghost predicate Valid()
      reads this
    {
      && 1 <= maxUidMark < IntMax
      && Increasing(pool)
      && (forall x :: x in pool ==> 1 <= x < maxUidMark)
      && UidsAllocated(objects, maxUidMark)
    }

    /** `cSprite_Manager::cSprite_Manager`: an empty list and pool, mark 1. */
    constructor ()
      ensures Valid()
      ensures objects == [] && pool == [] && maxUidMark == 1
    {
      objects := [];
      pool := [];
      maxUidMark := 1;
    }

    /** `Is_UID_In_Use`. */
    predicate IsUidInUse(uid: int)
      reads this
    {
      uid == 0 || (uid < maxUidMark && uid !in pool)
    }

    /** `Allocate_UIDs`: raises the mark to `newMark`, putting exactly the
        UIDs in [old mark, newMark) into the pool. A mark that is not higher
        is ignored; a mark at or above INT_MAX throws `std::range_error`
        (`ok` is false) and changes nothing. */
    method AllocateUids(newMark: int) returns (ok: bool)
      requires Valid()
      modifies this`pool, this`maxUidMark
      ensures Valid()
      ensures ok <==> (newMark <= old(maxUidMark) || newMark < IntMax)
      ensures maxUidMark == if ok then Max(old(maxUidMark), newMark) else old(maxUidMark)
      ensures Elems(pool) == Elems(old(pool)) + Range(old(maxUidMark), maxUidMark)
      ensures maxUidMark == old(maxUidMark) ==> pool == old(pool)
    {
      if newMark <= maxUidMark {
        return true;
      }
      if newMark >= IntMax {
        return false;
      }
      pool := AppendRange(pool, maxUidMark, newMark);
      maxUidMark := newMark;
      ok := true;
    }

    /** `Generate_UID`: hands out the smallest free UID, topping the pool up
        by ten when it is empty. The source reads the erased iterator; this
        is the intended "take the minimum". `ok` is false when the top-up
        throws. */
    method GenerateUid() returns (uid: int, ok: bool)
      requires Valid()
      modifies this`pool, this`maxUidMark
      ensures Valid()
      ensures maxUidMark == if old(pool) == [] && ok then old(maxUidMark) + 10 else old(maxUidMark)
      ensures ok <==> (old(pool) != [] || old(maxUidMark) + 10 < IntMax)
      ensures ok ==> uid in Elems(old(pool)) + Range(old(maxUidMark), maxUidMark)
      ensures ok ==> forall x :: x in Elems(old(pool)) + Range(old(maxUidMark), maxUidMark) ==> uid <= x
      ensures ok ==> Elems(pool) == Elems(old(pool)) + Range(old(maxUidMark), maxUidMark) - {uid}
      ensures ok ==> !old(IsUidInUse(uid)) && IsUidInUse(uid) && uid >= 1
      ensures !ok ==> pool == old(pool) && maxUidMark == old(maxUidMark)
    {
      if pool == [] {
        ok := AllocateUids(maxUidMark + 10);
        if !ok {
          return 0, false;
        }
        assert old(maxUidMark) in Elems(pool);
      }
      uid := pool[0];
      ok := true;
      assert pool[0] in Elems(pool);
      assert Elems(pool) == {pool[0]} + Elems(pool[1..]);
      assert pool[0] !in pool[1..];
      pool := pool[1..];
    }

    /** `Add`: a null sprite is ignored. A sprite without UID (<= 0) gets a
        fresh one; a preset UID raises the mark past it and is taken out of
        the pool. The first auto-destroyed slot is then overwritten and its
        UID released to the pool; without such a slot the sprite is
        appended. `stored` is the sprite as stored, `ok` is false when a UID
        allocation throws (then nothing changes). */
    method Add(sprite: Option<Sprite>) returns (stored: Option<Sprite>, ok: bool)
      requires Valid()
      modifies this
      ensures Valid()
      ensures sprite.None? || !ok ==>
        stored.None? && objects == old(objects) && pool == old(pool) && maxUidMark == old(maxUidMark)
      ensures sprite.None? ==> ok
      ensures sprite.Some? && sprite.value.uid > 0 ==> (ok <==> sprite.value.uid + 1 < IntMax)
      ensures sprite.Some? && sprite.value.uid <= 0 ==> (ok <==> old(pool) != [] || old(maxUidMark) + 10 < IntMax)
      ensures sprite.Some? && ok ==> stored.Some? && stored.value == sprite.value.(uid := stored.value.uid)
      ensures sprite.Some? && ok && sprite.value.uid > 0 ==>
        stored.value.uid == sprite.value.uid && maxUidMark == Max(old(maxUidMark), sprite.value.uid + 1)
      ensures sprite.Some? && ok && sprite.value.uid <= 0 ==>
        && !old(IsUidInUse(stored.value.uid))
        && maxUidMark == (if old(pool) == [] then old(maxUidMark) + 10 else old(maxUidMark))
        && forall x :: x in Elems(old(pool)) + Range(old(maxUidMark), maxUidMark) ==> stored.value.uid <= x
      ensures sprite.Some? && ok ==>
        match FirstDestroyed(old(objects))
        case Some(k) =>
          objects == old(objects)[k := stored.value]
          && Elems(pool) == Elems(old(pool)) + Range(old(maxUidMark), maxUidMark) - {stored.value.uid} + {old(objects)[k].uid}
        case None =>
          objects == old(objects) + [stored.value]
          && Elems(pool) == Elems(old(pool)) + Range(old(maxUidMark), maxUidMark) - {stored.value.uid}
    {
      if sprite.None? {
        return None, true;
      }
      var uid;
      uid, ok := ClaimUid(sprite.value.uid);
      if !ok {
        return None, false;
      }
      var s := sprite.value.(uid := uid);
      Store(s);
      stored := Some(s);
    }

    /** The UID half of `Add`: `Generate_UID` for an unset UID, otherwise
        the mark is raised past `uid` and `uid` is erased from the pool. */
    method ClaimUid(uid: int) returns (r: int, ok: bool)
      requires Valid()
      modifies this`pool, this`maxUidMark
      ensures Valid()
      ensures uid > 0 ==> (ok <==> uid + 1 < IntMax)
      ensures uid <= 0 ==> (ok <==> old(pool) != [] || old(maxUidMark) + 10 < IntMax)
      ensures !ok ==> pool == old(pool) && maxUidMark == old(maxUidMark)
      ensures ok ==> 1 <= r < maxUidMark
      ensures ok ==> Elems(pool) == Elems(old(pool)) + Range(old(maxUidMark), maxUidMark) - {r}
      ensures ok && uid > 0 ==> r == uid && maxUidMark == Max(old(maxUidMark), uid + 1)
      ensures ok && uid <= 0 ==>
        && !old(IsUidInUse(r))
        && maxUidMark == (if old(pool) == [] then old(maxUidMark) + 10 else old(maxUidMark))
        && forall x :: x in Elems(old(pool)) + Range(old(maxUidMark), maxUidMark) ==> r <= x
    {
      if uid <= 0 {
        r, ok := GenerateUid();
        return;
      }
      if uid >= maxUidMark {
        ok := AllocateUids(uid + 1);
        if !ok {
          return 0, false;
        }
      }
      pool := Erase(pool, uid);
      return uid, true;
    }

    /** The list half of `Add`: reuse the first auto-destroyed slot,
        releasing its UID, or append. */
    method Store(s: Sprite)
      requires Valid() && 1 <= s.uid < maxUidMark
      modifies this`objects, this`pool
      ensures Valid()
      ensures match FirstDestroyed(old(objects))
        case Some(k) =>
          objects == old(objects)[k := s] && Elems(pool) == Elems(old(pool)) + {old(objects)[k].uid}
        case None =>
          objects == old(objects) + [s] && pool == old(pool)
    {
      var i := 0;
      while i < |objects|
        invariant 0 <= i <= |objects|
        invariant forall j :: 0 <= j < i ==> !objects[j].autoDestroy
        invariant objects == old(objects) && pool == old(pool)
      {
        if objects[i].autoDestroy {
          pool := Insert(pool, objects[i].uid);
          objects := objects[i := s];
          return;
        }
        i := i + 1;
      }
      objects := objects + [s];
    }

    /** `Get_by_UID`: the first sprite carrying `uid`. */
    method GetByUid(uid: int) returns (r: Option<Sprite>)
      ensures r.Some? ==> r.value in objects && r.value.uid == uid
      ensures r.Some? ==> exists k :: (0 <= k < |objects| && objects[k] == r.value
                                       && forall j :: 0 <= j < k ==> objects[j].uid != uid)
      ensures r.None? <==> forall k :: 0 <= k < |objects| ==> objects[k].uid != uid
    {
      var i := 0;
      while i < |objects|
        invariant 0 <= i <= |objects|
        invariant forall j :: 0 <= j < i ==> objects[j].uid != uid
      {
        if objects[i].uid == uid {
          return Some(objects[i]);
        }
        i := i + 1;
      }
      return None;
    }

    /** `Move_To_Front`: the sprite becomes the first element and the others
        keep their order; lists of size <= 1 and absent sprites are left as
        they are. */
    method MoveToFront(id: nat)
      requires Valid()
      modifies this`objects
      ensures Valid()
      ensures objects == MovedToFront(old(objects), id)
    {
      if |objects| <= 1 {
        return;
      }
      if objects[0].id == id {
        return;
      }
      var k := Find(id);
      if k.None? {
        return;
      }
      ghost var objs := objects;
      var first := objects[0];
      var sprite := objects[k.value];
      // erase the sprite, overwrite the front with it and re-insert the
      // old front behind it
      var erased := objects[..k.value] + objects[k.value + 1..];
      FrontSteps(objs, id, k.value);
      MovesArePermutations(objs, id);
      PermutationKeepsUids(objs, MovedToFront(objs, id), maxUidMark);
      objects := [sprite] + [first] + erased[1..];
    }

    /** `Move_To_Back`: the sprite becomes the last element and the others
        keep their order; lists of size <= 1 and absent sprites are left as
        they are. */
    method MoveToBack(id: nat)
      requires Valid()
      modifies this`objects
      ensures Valid()
      ensures objects == MovedToBack(old(objects), id)
    {
      if |objects| <= 1 {
        return;
      }
      var n := |objects|;
      if objects[n - 1].id == id {
        return;
      }
      var k := Find(id);
      if k.None? {
        return;
      }
      assert k.value < n - 1;
      ghost var objs := objects;
      var last := objects[n - 1];
      var sprite := objects[k.value];
      // erase the sprite, overwrite the back with it and re-insert the
      // old back in front of it
      var erased := objects[..k.value] + objects[k.value + 1..];
      objects := erased[..n - 2] + [last] + [sprite];
      BackSteps(objs, id, k.value);
      assert objects == MovedToBack(objs, id);
      MovesArePermutations(objs, id);
      PermutationKeepsUids(objs, objects, maxUidMark);
    }

    /** `std::find` over the list. */
    method Find(id: nat) returns (k: Option<nat>)
      ensures k == IndexOf(objects, id)
    {
      var i := 0;
      while i < |objects|
        invariant 0 <= i <= |objects|
        invariant forall j :: 0 <= j < i ==> objects[j].id != id
      {
        if objects[i].id == id {
          IndexOfIsFirst(objects, id, i);
          return Some(i);
        }
        i := i + 1;
      }
      return None;
    }

    /** `Delete_All`: delayed, every sprite is marked for destruction (and
        its slot is reused by later `Add`s); otherwise the list is emptied.
        Both empty the UID pool; the mark is kept. */
    method DeleteAll(delayed: bool)
      requires Valid()
      modifies this`objects, this`pool
      ensures Valid()
      ensures pool == []
      ensures delayed ==> (|objects| == |old(objects)|
        && forall k :: 0 <= k < |objects| ==> objects[k] == old(objects)[k].(autoDestroy := true))
      ensures !delayed ==> objects == []
    {
      if delayed {
        var i := 0;
        while i < |objects|
          invariant 0 <= i <= |objects| == |old(objects)|
          invariant forall k :: 0 <= k < i ==> objects[k] == old(objects)[k].(autoDestroy := true)
          invariant forall k :: i <= k < |objects| ==> objects[k] == old(objects)[k]
        {
          objects := objects[i := objects[i].(autoDestroy := true)];
          i := i + 1;
        }
      } else {
        // sprites that may not be deleted by the manager are only removed
        // from the list; all others are deleted with it
        objects := [];
      }
      pool := [];
    }
  }

  /** Every sprite carries a UID in [1, mark). */
  predicate UidsAllocated(objs: seq<Sprite>, mark: int)
  {
    forall k :: 0 <= k < |objs| ==> 1 <= objs[k].uid < mark
  }

  lemma PermutationKeepsUids(a: seq<Sprite>, b: seq<Sprite>, mark: int)
    requires multiset(a) == multiset(b) && UidsAllocated(a, mark)
    ensures UidsAllocated(b, mark)
  {
    forall k | 0 <= k < |b|
      ensures 1 <= b[k].uid < mark
    {
      assert b[k] in multiset(b);
      assert b[k] in a;
    }
  }

  /** The list after `Move_To_Front`. */
  function MovedToFront(objs: seq<Sprite>, id: nat): seq<Sprite>
  {
    if |objs| <= 1 || objs[0].id == id then objs
    else match IndexOf(objs, id)
      case None => objs
      case Some(k) => [objs[k]] + objs[..k] + objs[k + 1..]
  }

  /** The list after `Move_To_Back`. */
  function MovedToBack(objs: seq<Sprite>, id: nat): seq<Sprite>
  {
    if |objs| <= 1 || objs[|objs| - 1].id == id then objs
    else match IndexOf(objs, id)
      case None => objs
      case Some(k) => objs[..k] + objs[k + 1..] + [objs[k]]
  }

  lemma IndexOfIsFirst(objs: seq<Sprite>, id: nat, i: nat)
    requires i < |objs| && objs[i].id == id
    requires forall j :: 0 <= j < i ==> objs[j].id != id
    ensures IndexOf(objs, id) == Some(i)
  {
    var r := IndexOf(objs, id);
    assert r.Some?;
    assert r.value == i;
  }

  lemma FrontSteps(objs: seq<Sprite>, id: nat, k: nat)
    requires 0 < k < |objs| && IndexOf(objs, id) == Some(k) && objs[0].id != id
    ensures [objs[k]] + [objs[0]] + (objs[..k] + objs[k + 1..])[1..] == MovedToFront(objs, id)
  {
    assert (objs[..k] + objs[k + 1..])[1..] == objs[1..k] + objs[k + 1..];
    assert objs[..k] == [objs[0]] + objs[1..k];
  }

  lemma BackSteps(objs: seq<Sprite>, id: nat, k: nat)
    requires k < |objs| - 1 && IndexOf(objs, id) == Some(k) && objs[|objs| - 1].id != id
    ensures (objs[..k] + objs[k + 1..])[..|objs| - 2] + [objs[|objs| - 1]] + [objs[k]] == MovedToBack(objs, id)
  {
    var n := |objs|;
    assert (objs[..k] + objs[k + 1..])[..n - 2] == objs[..k] + objs[k + 1..n - 1];
    assert objs[k + 1..] == objs[k + 1..n - 1] + [objs[n - 1]];
  }

  /** Taking out one element and putting it back at either end permutes. */
  lemma MovedPermutation(objs: seq<Sprite>, k: nat)
    requires k < |objs|
    ensures multiset([objs[k]] + objs[..k] + objs[k + 1..]) == multiset(objs)
    ensures multiset(objs[..k] + objs[k + 1..] + [objs[k]]) == multiset(objs)
  {
    assert objs == objs[..k] + [objs[k]] + objs[k + 1..];
  }

  /** Moving to the front and then to the back only permutes the list,
      and after either move the sprite is at the requested end. */
  lemma MovesArePermutations(objs: seq<Sprite>, id: nat)
    ensures multiset(MovedToFront(objs, id)) == multiset(objs)
    ensures multiset(MovedToBack(objs, id)) == multiset(objs)
    ensures |objs| > 1 && IndexOf(objs, id).Some? ==>
              MovedToFront(objs, id)[0].id == id && MovedToBack(objs, id)[|objs| - 1].id == id
  {
    match IndexOf(objs, id)
    case None =>
    case Some(k) => MovedPermutation(objs, k);
  }
}

/**
 The generator's list of matched resources, kept in a Go slice: a backing array and a length.
 RemoveResource shifts the backing array while it still ranges over the slice header it started with.
 */
module ResourceList {

  datatype Removal = Changed | Unchanged | Panic

  ghost predicate Unique<T>(s: seq<T>) {
    forall i, j :: 0 <= i < j < |s| ==> s[i] != s[j]
  }

  function Without<T(==)>(s: seq<T>, res: T): (r: seq<T>) {
    if s == [] then []
    else if s[0] == res then Without(s[1..], res)
    else [s[0]] + Without(s[1..], res)
  }

  /** What RemoveResource keeps: after a removal the next element is not looked at. */
  function Kept<T(==)>(s: seq<T>, res: T): (r: seq<T>)
    ensures |r| <= |s|
  {
    if s == [] then []
    else if s[0] != res then [s[0]] + Kept(s[1..], res)
    else if |s| == 1 then []
    else [s[1]] + Kept(s[2..], res)
  }

  /** RemoveResource slices out of bounds exactly when the last element is removed for a second time. */
  predicate Panics<T(==)>(s: seq<T>, res: T) {
    |s| > 0 && s[|s| - 1] == res && res in s[..|s| - 1]
  }

  class Slice<T(==,0)> {
    var backing: array<T>
    var len: nat

    ghost predicate Valid() reads this {
      len <= backing.Length
    }

    ghost function Contents(): seq<T>
      requires Valid()
      reads this, backing
    {
      backing[..len]
    }

    constructor (capacity: nat)
      ensures Valid() && fresh(backing) && Contents() == []
    {
      backing := new T[capacity];
      len := 0;
    }

    method AddResource(res: T) returns (changed: bool)
      requires Valid()
      modifies this, backing
      ensures Valid() && (backing == old(backing) || fresh(backing))
      ensures changed <==> res !in old(Contents())
      ensures Contents() == if changed then old(Contents()) + [res] else old(Contents())
    {
      for i := 0 to len
        invariant res !in backing[..i]
        invariant Contents() == old(Contents())
      {
        if backing[i] == res {
          return false;
        }
      }
      if len == backing.Length {
        var grown := new T[2 * len + 1];
        forall i | 0 <= i < len {
          grown[i] := backing[i];
        }
        backing := grown;
      }
      backing[len] := res;
      len := len + 1;
      return true;
    }

    /** append(s[:i], s[i+1:]...) */
    method CutAt(at: nat)
      requires Valid() && at < len
      modifies this`len, backing
      ensures Valid() && len == old(len) - 1
      ensures backing[..] == Cut(old(backing[..]), at, old(len))
    {
      for j := at + 1 to len
        invariant len == old(len)
        invariant forall q :: 0 <= q < at ==> backing[q] == old(backing[q])
        invariant forall q :: at <= q < j - 1 ==> backing[q] == old(backing[q + 1])
        invariant forall q :: j - 1 <= q < backing.Length ==> backing[q] == old(backing[q])
      {
        backing[j - 1] := backing[j];
      }
      len := len - 1;
    }

    /** One round of the loop, with the slice expression that may be out of range. */
    method VisitCell(res: T, i: nat, ghost was: seq<T>, ghost kept: seq<T>, ghost rest: seq<T>)
      returns (panicked: bool, ghost kept': seq<T>, ghost rest': seq<T>)
      requires Valid() && i < |was| && Ranging(was, res, i, backing[..], len, kept, rest)
      modifies this`len, backing
      ensures Valid() && len <= old(len)
      ensures panicked ==> Panics(was, res)
      ensures !panicked ==> Ranging(was, res, i + 1, backing[..], len, kept', rest')
    {
      kept', rest' := kept, rest;
      assert backing[i] == backing[..][i];
      if backing[i] != res {
        RangingKeep(was, res, i, backing[..], len, kept, rest);
        return false, if i < len then kept + [rest[0]] else kept, if i < len then rest[1..] else rest;
      }
      if i + 1 > len {
        RangingPanic(was, res, i, backing[..], len, kept, rest);
        return true, kept, rest;
      }
      RangingCut(was, res, i, backing[..], len, kept, rest);
      CutAt(i);
      return false, if |rest| > 1 then kept + [rest[1]] else kept, if |rest| > 1 then rest[2..] else [];
    }

    method RemoveResource(res: T) returns (outcome: Removal)
      requires Valid()
      modifies this`len, backing
      ensures Valid()
      ensures outcome == Panic <==> Panics(old(Contents()), res)
      ensures outcome != Panic ==>
        && (outcome == Changed <==> res in old(Contents()))
        && Contents() == Kept(old(Contents()), res)
    {
      ghost var was := Contents();
      var n := len;
      ghost var kept, rest := [], was;
      RangingStart(was, res, backing[..]);
      for i := 0 to n
        invariant Valid() && len <= n
        invariant Ranging(was, res, i, backing[..], len, kept, rest)
      {
        var panicked;
        panicked, kept, rest := VisitCell(res, i, was, kept, rest);
        if panicked {
          return Panic;
        }
      }
      RangingDone(was, res, backing[..], len, kept, rest);
      assert backing[..][..len] == Contents();
      return if len < n then Changed else Unchanged;
    }
  }

  /** The backing array after the elements behind `at` moved down by one; the last cell keeps its old value. */
  function Cut<T>(buf: seq<T>, at: nat, len: nat): seq<T>
    requires at < len <= |buf|
  {
    buf[..at] + buf[at + 1..len] + buf[len - 1..]
  }

  /**
   After `i` rounds over a list that was `was`: `buf` is the backing array, `len` the current length, `kept`
   the part of the current list that was visited, and `rest` the part that is still to be visited.
   */
  ghost predicate Ranging<T>(was: seq<T>, res: T, i: nat, buf: seq<T>, len: nat, kept: seq<T>, rest: seq<T>) {
    var n := |was|;
    && n <= |buf| && i <= n && len <= n
    && |rest| == (if i <= len then len - i else 0)
    && buf[..len] == kept + rest
    && Kept(was, res) == kept + Kept(rest, res)
    && (len == n ==> buf[..n] == was)
    && (len < n <==> res in was[..i])
    && (rest != [] ==> rest[|rest| - 1] == was[n - 1])
    && (forall j :: len <= j < n ==> buf[j] == was[n - 1])
    && (i == n ==> !Panics(was, res))
  }

  lemma RangingStart<T>(was: seq<T>, res: T, buf: seq<T>)
    requires |was| <= |buf| && buf[..|was|] == was
    ensures Ranging(was, res, 0, buf, |was|, [], was)
  {
  }

  lemma RangingPanic<T>(was: seq<T>, res: T, i: nat, buf: seq<T>, len: nat, kept: seq<T>, rest: seq<T>)
    requires Ranging(was, res, i, buf, len, kept, rest) && len <= i < |was| && buf[i] == res
    ensures Panics(was, res)
  {
    assert was[..|was| - 1][..i] == was[..i];
  }

  lemma RangingDone<T>(was: seq<T>, res: T, buf: seq<T>, len: nat, kept: seq<T>, rest: seq<T>)
    requires Ranging(was, res, |was|, buf, len, kept, rest)
    ensures !Panics(was, res) && Kept(was, res) == buf[..len]
    ensures len < |was| <==> res in was
  {
    assert was[..|was|] == was;
  }

  lemma RangingKeep<T>(was: seq<T>, res: T, i: nat, buf: seq<T>, len: nat, kept: seq<T>, rest: seq<T>)
    requires Ranging(was, res, i, buf, len, kept, rest) && i < |was| && buf[i] != res
    ensures Ranging(was, res, i + 1, buf, len, if i < len then kept + [rest[0]] else kept,
                    if i < len then rest[1..] else rest)
  {
    assert was[..i + 1] == was[..i] + [was[i]];
    if i < len {
      assert rest[0] == buf[..len][i];
      assert kept + [rest[0]] + rest[1..] == kept + rest;
    }
  }

  lemma CutContents<T>(buf: seq<T>, at: nat, len: nat, kept: seq<T>, rest: seq<T>)
    requires at < len <= |buf| && buf[..len] == kept + rest && |kept| == at
    ensures Cut(buf, at, len)[..len - 1] == kept + rest[1..]
  {
    assert Cut(buf, at, len)[..len - 1] == buf[..len][..at] + buf[..len][at + 1..];
  }

  lemma RangingCut<T>(was: seq<T>, res: T, i: nat, buf: seq<T>, len: nat, kept: seq<T>, rest: seq<T>)
    requires Ranging(was, res, i, buf, len, kept, rest) && i < len && buf[i] == res
    ensures Ranging(was, res, i + 1, Cut(buf, i, len), len - 1, if |rest| > 1 then kept + [rest[1]] else kept,
                    if |rest| > 1 then rest[2..] else [])
  {
    var buf' := Cut(buf, i, len);
    assert was[..i + 1] == was[..i] + [was[i]];
    assert forall j :: 0 <= j < len ==> buf[j] == buf[..len][j];
    assert rest[0] == buf[i];
    assert rest[|rest| - 1] == buf[len - 1];
    CutContents(buf, i, len, kept, rest);
    if |rest| > 1 {
      assert rest[2..] != [] ==> rest[2..][|rest| - 3] == rest[|rest| - 1];
      assert kept + [rest[1]] + rest[2..] == kept + rest[1..];
    }
  }

  lemma {:induction false} WithoutRemoves<T>(s: seq<T>, res: T)
    ensures res !in Without(s, res)
    ensures forall x :: x != res ==> (x in Without(s, res) <==> x in s)
  {
    if s != [] {
      WithoutRemoves(s[1..], res);
      assert s == [s[0]] + s[1..];
    }
  }

  lemma {:induction false} WithoutAbsent<T>(s: seq<T>, res: T)
    requires res !in s
    ensures Without(s, res) == s
  {
    if s != [] {
      WithoutAbsent(s[1..], res);
    }
  }

  lemma {:induction false} WithoutUnique<T>(s: seq<T>, res: T)
    requires Unique(s)
    ensures Unique(Without(s, res))
  {
    if s != [] {
      WithoutUnique(s[1..], res);
      WithoutRemoves(s[1..], res);
      var rest := Without(s[1..], res);
      assert s[0] !in s[1..];
      if s[0] != res {
        var r := [s[0]] + rest;
        forall i, j | 0 <= i < j < |r| ensures r[i] != r[j] {
          assert r[j] == rest[j - 1] && rest[j - 1] in rest;
        }
      }
    }
  }

  /** On a list without duplicates, which AddResource keeps, exactly the requested element goes and nothing panics. */
  lemma {:induction false} RemoveExactlyOne<T>(s: seq<T>, res: T)
    requires Unique(s)
    ensures !Panics(s, res)
    ensures Kept(s, res) == Without(s, res) && Unique(Kept(s, res))
    ensures res !in Kept(s, res) && forall x :: x != res ==> (x in Kept(s, res) <==> x in s)
  {
    KeptIsWithout(s, res);
    WithoutUnique(s, res);
    WithoutRemoves(s, res);
  }

  lemma {:induction false} RemoveCuts<T>(s: seq<T>, i: nat)
    requires Unique(s) && i < |s|
    ensures Kept(s, s[i]) == s[..i] + s[i + 1..]
  {
    if i == 0 {
      if |s| > 1 {
        KeptAbsent(s[2..], s[0]);
      }
    } else {
      RemoveCuts(s[1..], i - 1);
      assert s[1..][..i - 1] == s[1..i];
    }
  }

  lemma {:induction false} KeptIsWithout<T>(s: seq<T>, res: T)
    requires Unique(s)
    ensures Kept(s, res) == Without(s, res)
  {
    if s != [] {
      if s[0] != res {
        KeptIsWithout(s[1..], res);
      } else {
        WithoutAbsent(s[1..], res);
        if |s| > 1 {
          KeptAbsent(s[2..], res);
          assert s[1..] == [s[1]] + s[2..];
        }
      }
    }
  }

  lemma {:induction false} KeptAbsent<T>(s: seq<T>, res: T)
    requires res !in s
    ensures Kept(s, res) == s
  {
    if s != [] {
      KeptAbsent(s[1..], res);
    }
  }

  /** With duplicates, an occurrence survives exactly when two of them are adjacent. */
  lemma {:induction false} KeptMissesAdjacent<T>(s: seq<T>, res: T)
    ensures res in Kept(s, res) <==> exists i :: 0 <= i < |s| - 1 && s[i] == res && s[i + 1] == res
  {
    if s == [] {
    } else if s[0] != res {
      var t := s[1..];
      KeptMissesAdjacent(t, res);
      if i :| 0 <= i < |t| - 1 && t[i] == res && t[i + 1] == res {
        assert s[i + 1] == res && s[i + 1 + 1] == res;
      }
      if i :| 0 <= i < |s| - 1 && s[i] == res && s[i + 1] == res {
        assert t[i - 1] == res && t[i - 1 + 1] == res;
      }
    } else if |s| > 1 && s[1] != res {
      var t := s[2..];
      KeptMissesAdjacent(t, res);
      if i :| 0 <= i < |t| - 1 && t[i] == res && t[i + 1] == res {
        assert s[i + 2] == res && s[i + 2 + 1] == res;
      }
      if i :| 0 <= i < |s| - 1 && s[i] == res && s[i + 1] == res {
        assert i >= 2 && t[i - 2] == res && t[i - 2 + 1] == res;
      }
    } else if |s| > 1 {
      assert s[0] == res && s[0 + 1] == res;
    }
  }
}

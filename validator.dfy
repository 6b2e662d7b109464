/** internal/validator: a map of field errors in which the first message
    recorded for a field wins, plus the small predicates the rules use. */
module Validator {
  import opened GoStrings

  /** The error map after AddError(key, message): an existing message for
      key is kept, every other entry is untouched, and the map never shrinks. */
  function WithError(errors: map<string, string>, key: string, message: string): (r: map<string, string>)
    ensures r.Keys == errors.Keys + {key}
    ensures forall k :: k in errors ==> r[k] == errors[k]
    ensures key !in errors ==> r[key] == message
  {
    if key in errors then errors else errors[key := message]
  }

  /** The error map after Check(ok, key, message): nothing changes when ok;
      otherwise key gains message unless it already had one. */
  function Checked(errors: map<string, string>, ok: bool, key: string, message: string): (r: map<string, string>)
    ensures r.Keys == if ok then errors.Keys else errors.Keys + {key}
    ensures forall k :: k in errors ==> r[k] == errors[k]
    ensures !ok && key !in errors ==> r[key] == message
  {
    if ok then errors else WithError(errors, key, message)
  }

  class Validator {
    var errors: map<string, string>

    /** validator.New(): an empty error map. */
    constructor New()
      ensures errors == map[]
    {
      errors := map[];
    }

    /** Valid holds exactly when no error has been recorded. */
    predicate Valid()
      reads this
      ensures Valid() <==> errors == map[]
    {
      assert errors == map[] <==> |errors.Keys| == 0;
      |errors| == 0
    }

    method AddError(key: string, message: string)
      modifies this
      ensures errors == WithError(old(errors), key, message)
    {
      if key !in errors {
        errors := errors[key := message];
      }
    }

    method Check(ok: bool, key: string, message: string)
      modifies this
      ensures errors == Checked(old(errors), ok, key, message)
    {
      if !ok {
        AddError(key, message);
      }
    }
  }

  /** PermittedValue (and the slices.Contains it calls): a linear scan for value. */
  function PermittedValue<T(==)>(value: T, permitted: seq<T>): (r: bool)
    ensures r <==> exists i :: 0 <= i < |permitted| && permitted[i] == value
  {
    if permitted == [] then false
    else permitted[0] == value || PermittedValue(value, permitted[1..])
  }

  /** Matches(value, rx): whether the pattern accepts value. */
  predicate Matches(value: string, rx: string -> bool) {
    rx(value)
  }

  predicate IsAlnum(c: char) {
    ('a' <= c <= 'z') || ('A' <= c <= 'Z') || ('0' <= c <= '9')
  }

  /** A byte of the local part: [a-zA-Z0-9.!#$%&'*+/=?^_`{|}~-]. */
  predicate IsLocalChar(c: char) {
    IsAlnum(c) || c in ".!#$%&'*+/=?^_`{|}~-"
  }

  /** One domain label: [a-zA-Z0-9](?:[a-zA-Z0-9-]{0,61}[a-zA-Z0-9])?, that is
      1 to 63 bytes of letters, digits and '-', starting and ending alphanumeric. */
  predicate IsLabel(name: string) {
    && 1 <= |name| <= 63
    && IsAlnum(name[0])
    && IsAlnum(name[|name| - 1])
    && forall i :: 0 < i < |name| - 1 ==> IsAlnum(name[i]) || name[i] == '-'
  }

  /** EmailRX: a non-empty local part, one '@', then labels separated by '.'.
      Neither part may hold an '@', so the split at '@' is the only one. */
  predicate EmailRX(s: string) {
    var parts := Split(s, '@');
    && |parts| == 2
    && |parts[0]| >= 1
    && (forall i :: 0 <= i < |parts[0]| ==> IsLocalChar(parts[0][i]))
    && (forall name | name in Split(parts[1], '.') :: IsLabel(name))
  }

  predicate Sorted(s: seq<int>) {
    forall i, j :: 0 <= i < j < |s| ==> s[i] <= s[j]
  }

  /** No two elements of s are equal. */
  predicate Distinct(s: seq<int>) {
    forall i, j :: 0 <= i < j < |s| ==> s[i] != s[j]
  }

  /** A sorted sequence with no equal neighbours is distinct. */
  lemma {:induction false} SortedNoAdjacentDistinct(s: seq<int>)
    requires Sorted(s)
    requires forall k :: 0 <= k < |s| - 1 ==> s[k] != s[k + 1]
    ensures Distinct(s)
  {
    forall i, j | 0 <= i < j < |s| ensures s[i] != s[j] {
      assert s[i] <= s[i + 1] <= s[j];
      assert s[i] < s[i + 1];
    }
  }

  /** Distinctness is a property of the multiset: each value occurs at most once. */
  lemma {:induction false} DistinctIffSingletons(s: seq<int>)
    ensures Distinct(s) <==> forall x :: multiset(s)[x] <= 1
  {
    if s == [] {
    } else {
      var t := s[1..];
      assert s == [s[0]] + t;
      DistinctIffSingletons(t);
      if Distinct(s) {
        assert Distinct(t) by {
          forall i, j | 0 <= i < j < |t| ensures t[i] != t[j] {
            assert s[i + 1] != s[j + 1];
          }
        }
        assert s[0] !in t;
        forall x ensures multiset(s)[x] <= 1 {
          assert multiset(s)[x] == multiset(t)[x] + (if x == s[0] then 1 else 0);
        }
      } else {
        var i, j :| 0 <= i < j < |s| && s[i] == s[j];
        if i == 0 {
          assert s[0] in t by { assert t[j - 1] == s[j]; }
          assert multiset(s)[s[0]] == multiset(t)[s[0]] + 1;
          assert multiset(t)[s[0]] >= 1;
        } else {
          assert t[i - 1] == t[j - 1];
          assert !Distinct(t);
          var x :| multiset(t)[x] > 1;
          assert multiset(s)[x] >= multiset(t)[x];
        }
      }
    }
  }

  /** Reordering does not change whether the elements are distinct. */
  lemma DistinctPermutation(s: seq<int>, t: seq<int>)
    requires multiset(s) == multiset(t)
    ensures Distinct(s) <==> Distinct(t)
  {
    DistinctIffSingletons(s);
    DistinctIffSingletons(t);
  }

  method Swap(a: array<int>, i: int, j: int)
    requires 0 <= i < j < a.Length
    modifies a
    ensures a[i] == old(a[j]) && a[j] == old(a[i])
    ensures forall k :: 0 <= k < a.Length && k != i && k != j ==> a[k] == old(a[k])
    ensures multiset(a[..]) == multiset(old(a[..]))
  {
    a[i], a[j] := a[j], a[i];
  }

  /** slices.Sort on the caller's slice: afterwards it is a sorted permutation
      of what it held (an insertion sort stands for Go's library algorithm). */
  method Sort(a: array<int>)
    modifies a
    ensures Sorted(a[..])
    ensures multiset(a[..]) == multiset(old(a[..]))
  {
    if a.Length == 0 { return; }
    var up := 1;
    while up < a.Length
      invariant 1 <= up <= a.Length
      invariant forall i, j :: 0 <= i < j < up ==> a[i] <= a[j]
      invariant multiset(a[..]) == multiset(old(a[..]))
    {
      var down := up;
      while down >= 1 && a[down - 1] > a[down]
        invariant 0 <= down <= up
        invariant forall i, j :: 0 <= i < j <= up && j != down ==> a[i] <= a[j]
        invariant multiset(a[..]) == multiset(old(a[..]))
      {
        Swap(a, down - 1, down);
        down := down - 1;
      }
      up := up + 1;
    }
  }

  /** Unique sorts the slice in place, then reports whether no two neighbours
      are equal: true exactly when the original elements were distinct. */
  method Unique(a: array<int>) returns (r: bool)
    modifies a
    ensures Sorted(a[..])
    ensures multiset(a[..]) == multiset(old(a[..]))
    ensures r <==> Distinct(old(a[..]))
  {
    Sort(a);
    DistinctPermutation(a[..], old(a[..]));
    var i := 0;
    while i < a.Length
      invariant 0 <= i <= a.Length
      invariant forall k :: 0 <= k < i && k < a.Length - 1 ==> a[k] != a[k + 1]
    {
      if i == a.Length - 1 {
        i := i + 1;
        continue;
      }
      if a[i] == a[i + 1] {
        assert !Distinct(a[..]) by { assert a[..][i] == a[..][i + 1]; }
        return false;
      }
      i := i + 1;
    }
    SortedNoAdjacentDistinct(a[..]);
    return true;
  }
}

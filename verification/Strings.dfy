/** White space, trimming and sorting of strings, as the `unicode`, `strings` and `sort`
    packages of Go define them on valid text. */
module Strings {

  // ---- White space (unicode.IsSpace, strings.TrimSpace) ----

  predicate IsSpace(c: char) {
    var u := c as int;
    || 0x9 <= u <= 0xd || u == 0x20 || u == 0x85 || u == 0xa0 || u == 0x1680
    || 0x2000 <= u <= 0x200a || u == 0x2028 || u == 0x2029 || u == 0x202f || u == 0x205f || u == 0x3000
  }

  function TrimLeft(s: string): string {
    if s != "" && IsSpace(s[0]) then TrimLeft(s[1..]) else s
  }

  function TrimRight(s: string): string {
    if s != "" && IsSpace(s[|s| - 1]) then TrimRight(s[..|s| - 1]) else s
  }

  function Trim(s: string): string {
    TrimRight(TrimLeft(s))
  }

  predicate Trimmed(s: string) {
    s == "" || (!IsSpace(s[0]) && !IsSpace(s[|s| - 1]))
  }

  lemma {:induction false} TrimRightEnds(s: string)
    ensures TrimRight(s) <= s
    ensures TrimRight(s) != "" ==> !IsSpace(TrimRight(s)[|TrimRight(s)| - 1])
  {
    if s != "" && IsSpace(s[|s| - 1]) {
      TrimRightEnds(s[..|s| - 1]);
    }
  }

  lemma {:induction false} TrimLeftStarts(s: string)
    ensures TrimLeft(s) != "" ==> !IsSpace(TrimLeft(s)[0])
  {
    if s != "" && IsSpace(s[0]) {
      TrimLeftStarts(s[1..]);
    }
  }

  lemma {:induction false} TrimRightAppend(a: string, b: string)
    ensures TrimRight(a + b) == if TrimRight(b) != "" then a + TrimRight(b) else TrimRight(a)
    decreases |b|
  {
    if b == "" {
      assert a + b == a;
    } else if IsSpace(b[|b| - 1]) {
      assert (a + b)[..|a + b| - 1] == a + b[..|b| - 1];
      TrimRightAppend(a, b[..|b| - 1]);
    }
  }

  lemma {:induction false} TrimsCommute(s: string)
    ensures TrimLeft(TrimRight(s)) == TrimRight(TrimLeft(s))
  {
    if s == "" {
    } else {
      assert s == [s[0]] + s[1..];
      TrimRightAppend([s[0]], s[1..]);
      TrimsCommute(s[1..]);
      if TrimRight(s[1..]) != "" {
        assert ([s[0]] + TrimRight(s[1..]))[1..] == TrimRight(s[1..]);
      } else if IsSpace(s[0]) {
        assert TrimRight([s[0]]) == TrimRight("") == "";
      }
    }
  }

  /** `Trim` answers the trimmed strings, and leaves exactly those alone. */
  lemma TrimIsTrimmed(s: string)
    ensures Trimmed(Trim(s))
    ensures Trim(s) == s <==> Trimmed(s)
  {
    TrimLeftStarts(s);
    TrimRightEnds(TrimLeft(s));
  }

  lemma {:induction false} TrimLeftAppend(a: string, b: string)
    requires TrimLeft(a) != ""
    ensures TrimLeft(a + b) == TrimLeft(a) + b
  {
    if IsSpace(a[0]) {
      assert (a + b)[1..] == a[1..] + b;
      TrimLeftAppend(a[1..], b);
    }
  }

  lemma TrimForgetsTrimLeft(s: string)
    ensures Trim(TrimLeft(s)) == Trim(s)
  {
    TrimLeftStarts(s);
  }

  lemma TrimForgetsTrimRight(s: string)
    ensures Trim(TrimRight(s)) == Trim(s)
  {
    TrimsCommute(s);
    TrimRightEnds(TrimLeft(s));
  }

  /** `strings.HasSuffix`. */
  predicate EndsWith(s: string, suffix: string) {
    |suffix| <= |s| && s[|s| - |suffix|..] == suffix
  }

  // ---- Sorting ----

  /** `sort.Strings`: UTF-8 orders like code points. */
  predicate Leq(a: string, b: string) {
    a == "" || (b != "" && (a[0] < b[0] || (a[0] == b[0] && Leq(a[1..], b[1..]))))
  }

  lemma {:induction false} LeqTotal(a: string, b: string)
    ensures Leq(a, b) || Leq(b, a)
    ensures Leq(a, b) && Leq(b, a) ==> a == b
  {
    if a != "" && b != "" {
      LeqTotal(a[1..], b[1..]);
      assert a == [a[0]] + a[1..] && b == [b[0]] + b[1..];
    }
  }

  predicate DiffersAt(a: string, b: string, k: nat) {
    k < |a| && k < |b| && a[..k] == b[..k] && a[k] < b[k]
  }

  lemma DiffersLater(a: string, b: string, k: nat)
    requires a != "" && b != "" && a[0] == b[0]
    ensures DiffersAt(a, b, k + 1) <==> DiffersAt(a[1..], b[1..], k)
  {
    if k + 1 < |a| && k + 1 < |b| {
      assert a[..k + 1] == [a[0]] + a[1..][..k];
      assert b[..k + 1] == [b[0]] + b[1..][..k];
      assert a[1..][..k] == a[..k + 1][1..] && b[1..][..k] == b[..k + 1][1..];
    }
  }

  lemma DiffersFirst(a: string, b: string, k: nat)
    requires a != "" && b != "" && DiffersAt(a, b, k)
    ensures if k == 0 then a[0] < b[0] else a[0] == b[0]
  {
    if k > 0 {
      assert a[..k][0] == a[0] && b[..k][0] == b[0];
    }
  }

  /** A prefix comes first; otherwise the first difference decides. */
  lemma {:induction false} LeqIff(a: string, b: string)
    ensures Leq(a, b) <==> a <= b || exists k: nat :: DiffersAt(a, b, k)
  {
    if a != "" && b != "" {
      assert a == [a[0]] + a[1..] && b == [b[0]] + b[1..];
      if k: nat :| DiffersAt(a, b, k) {
        DiffersFirst(a, b, k);
        if k > 0 {
          DiffersLater(a, b, k - 1);
        }
      }
      if a[0] == b[0] {
        LeqIff(a[1..], b[1..]);
        if k: nat :| DiffersAt(a[1..], b[1..], k) {
          DiffersLater(a, b, k);
        }
      } else if a[0] < b[0] {
        assert DiffersAt(a, b, 0);
      }
    }
  }

  lemma {:induction false} LeqTransitive(a: string, b: string, c: string)
    requires Leq(a, b) && Leq(b, c)
    ensures Leq(a, c)
  {
    if a != "" && a[0] == b[0] && b[0] == c[0] {
      LeqTransitive(a[1..], b[1..], c[1..]);
    }
  }

  ghost predicate Sorted(keys: seq<string>) {
    forall i, j | 0 <= i < j < |keys| :: keys[i] != keys[j] && Leq(keys[i], keys[j])
  }

  function Elements(keys: seq<string>): set<string> {
    set k | k in keys
  }

  lemma ElementsOf(keys: seq<string>)
    ensures forall k :: k in keys <==> k in Elements(keys)
  {}

  lemma NoElements(keys: seq<string>)
    ensures Elements(keys) == {} <==> keys == []
  {
    if keys != [] {
      assert keys[0] in Elements(keys);
    }
  }

  /** A set of keys has one sorted listing. */
  lemma {:induction false} SortedIsUnique(a: seq<string>, b: seq<string>)
    requires Sorted(a) && Sorted(b) && Elements(a) == Elements(b)
    ensures a == b
    decreases |a|
  {
    if a == [] {
      NoElements(a);
      NoElements(b);
    } else {
      assert a[0] in Elements(b) && b != [];
      assert b[0] in Elements(a);
      LeqTotal(a[0], b[0]);
      assert a[0] == b[0];
      assert Elements(a[1..]) == Elements(a) - {a[0]};
      assert Elements(b[1..]) == Elements(b) - {b[0]};
      SortedIsUnique(a[1..], b[1..]);
      assert a == [a[0]] + a[1..] && b == [b[0]] + b[1..];
    }
  }

  function Insert(k: string, keys: seq<string>): seq<string> {
    if keys == [] || Leq(k, keys[0]) then [k] + keys else [keys[0]] + Insert(k, keys[1..])
  }

  lemma {:induction false} InsertSorts(k: string, keys: seq<string>)
    requires Sorted(keys) && k !in keys
    ensures Sorted(Insert(k, keys)) && Elements(Insert(k, keys)) == Elements(keys) + {k}
  {
    if keys == [] {
    } else if Leq(k, keys[0]) {
      forall j | 0 <= j < |keys| ensures Leq(k, keys[j]) {
        if j > 0 {
          LeqTransitive(k, keys[0], keys[j]);
        }
      }
    } else {
      var rest := Insert(k, keys[1..]);
      InsertSorts(k, keys[1..]);
      LeqTotal(k, keys[0]);
      forall j | 0 <= j < |rest| ensures keys[0] != rest[j] && Leq(keys[0], rest[j]) {
        assert rest[j] in Elements(rest);
      }
      assert keys == [keys[0]] + keys[1..];
      assert Elements([keys[0]] + rest) == Elements(rest) + {keys[0]};
      assert Elements(keys) == Elements(keys[1..]) + {keys[0]};
    }
  }

  method SortStrings(keys: seq<string>) returns (sorted: seq<string>)
    requires forall i, j | 0 <= i < j < |keys| :: keys[i] != keys[j]
    ensures Sorted(sorted) && Elements(sorted) == Elements(keys)
  {
    sorted := [];
    for i := 0 to |keys|
      invariant Sorted(sorted) && Elements(sorted) == Elements(keys[..i])
    {
      ElementsOf(sorted);
      InsertSorts(keys[i], sorted);
      sorted := Insert(keys[i], sorted);
      assert keys[..i + 1] == keys[..i] + [keys[i]];
    }
    assert keys[..|keys|] == keys;
  }

  ghost function SortedKeys(keys: set<string>): (r: seq<string>)
    ensures Sorted(r) && Elements(r) == keys
  {
    if keys == {} then []
    else
      var k :| k in keys;
      var rest := SortedKeys(keys - {k});
      ElementsOf(rest);
      InsertSorts(k, rest);
      Insert(k, rest)
  }

  /** The elements in whatever order the set gives them out. */
  method ListElements(all: set<string>) returns (keys: seq<string>)
    ensures Elements(keys) == all
    ensures forall i, j | 0 <= i < j < |keys| :: keys[i] != keys[j]
  {
    keys := [];
    var unseen := all;
    while unseen != {}
      invariant unseen <= all && Elements(keys) == all - unseen
      invariant forall i, j | 0 <= i < j < |keys| :: keys[i] != keys[j]
      decreases unseen
    {
      var key :| key in unseen;
      ElementsOf(keys);
      unseen, keys := unseen - {key}, keys + [key];
    }
  }

  /** The elements in sorted order. */
  method SortedElements(all: set<string>) returns (keys: seq<string>)
    ensures keys == SortedKeys(all)
  {
    keys := ListElements(all);
    keys := SortStrings(keys);
    SortedIsUnique(keys, SortedKeys(all));
  }
}

/** The OpenTelemetry resource attributes the node agent hands to a workload: splitting,
    unescaping and parsing what the user wrote, merging the platform's own attributes into
    it, and printing the result in a canonical order. */
module Telemetry {
  import opened StoreModel
  import opened Strings

  // ---- Splitting on unescaped commas ----

  function Prefixed(word: string, parts: seq<string>): seq<string>
    requires parts != []
  {
    [word + parts[0]] + parts[1..]
  }

  function SplitFrom(s: string, escaped: bool): (parts: seq<string>)
    ensures parts != []
  {
    if s == "" then [""]
    else if !escaped && s[0] == ',' then [""] + SplitFrom(s[1..], false)
    else Prefixed([s[0]], SplitFrom(s[1..], !escaped && s[0] == '\\'))
  }

  function Split(raw: string): seq<string> {
    if raw == "" then [] else SplitFrom(raw, false)
  }

  function Join(parts: seq<string>): string {
    if parts == [] then "" else if |parts| == 1 then parts[0] else parts[0] + "," + Join(parts[1..])
  }

  lemma PrefixedTwice(a: string, b: string, parts: seq<string>)
    requires parts != []
    ensures Prefixed(a, Prefixed(b, parts)) == Prefixed(a + b, parts)
    ensures Prefixed("", parts) == parts
  {
    assert "" + parts[0] == parts[0];
    assert a + (b + parts[0]) == (a + b) + parts[0];
  }

  lemma PrefixedComma(current: string, before: seq<string>, rest: seq<string>)
    requires rest != []
    ensures before + Prefixed(current, [""] + rest) == before + [current] + Prefixed("", rest)
  {
    PrefixedTwice("", "", rest);
    assert current + "" == current;
  }

  method SplitAttributes(raw: string) returns (parts: seq<string>)
    ensures parts == Split(raw)
  {
    parts := [];
    var current, escaped, i := "", false, 0;
    PrefixedTwice("", "", SplitFrom(raw, false));
    assert raw[0..] == raw;
    while i < |raw|
      invariant 0 <= i <= |raw|
      invariant i == 0 ==> parts == [] && current == ""
      invariant parts + Prefixed(current, SplitFrom(raw[i..], escaped)) == SplitFrom(raw, false)
    {
      var r := raw[i];
      assert raw[i..][1..] == raw[i + 1..];
      i := i + 1;
      PrefixedTwice(current, [r], SplitFrom(raw[i..], !escaped && r == '\\'));
      PrefixedComma(current, parts, SplitFrom(raw[i..], false));
      if escaped {
        current := current + [r];
        escaped := false;
      } else if r == '\\' {
        escaped := true;
        current := current + [r];
      } else if r == ',' {
        parts := parts + [current];
        current := "";
      } else {
        current := current + [r];
      }
    }
    assert raw[i..] == "" && current + "" == current;
    if current != "" || raw != "" {
      parts := parts + [current];
    }
  }

  lemma {:induction false} JoinPrefixed(word: string, parts: seq<string>)
    requires parts != []
    ensures Join(Prefixed(word, parts)) == word + Join(parts)
  {
    assert Prefixed(word, parts)[1..] == parts[1..];
  }

  lemma {:induction false} JoinSplitFrom(s: string, escaped: bool)
    ensures Join(SplitFrom(s, escaped)) == s
  {
    if s == "" {
    } else if !escaped && s[0] == ',' {
      var rest := SplitFrom(s[1..], false);
      assert ([""] + rest)[1..] == rest;
      JoinSplitFrom(s[1..], false);
    } else {
      JoinSplitFrom(s[1..], !escaped && s[0] == '\\');
      JoinPrefixed([s[0]], SplitFrom(s[1..], !escaped && s[0] == '\\'));
    }
  }

  /** Splitting loses nothing, whatever the text. */
  lemma JoinSplit(raw: string)
    ensures Join(Split(raw)) == raw
  {
    if raw != "" {
      JoinSplitFrom(raw, false);
    }
  }

  // ---- Cutting at the first unescaped equals sign ----

  function CutAfter(word: string, cut: Option<(string, string)>): Option<(string, string)> {
    if cut == None then None else Some((word + cut.value.0, cut.value.1))
  }

  function CutFrom(s: string, escaped: bool): Option<(string, string)> {
    if s == "" then None
    else if !escaped && s[0] == '=' then Some(("", s[1..]))
    else CutAfter([s[0]], CutFrom(s[1..], !escaped && s[0] == '\\'))
  }

  lemma CutAfterTwice(a: string, b: string, cut: Option<(string, string)>)
    ensures CutAfter(a, CutAfter(b, cut)) == CutAfter(a + b, cut) && CutAfter("", cut) == cut
  {
    if cut.Some? {
      assert "" + cut.value.0 == cut.value.0;
      assert a + (b + cut.value.0) == (a + b) + cut.value.0;
    }
  }

  method CutUnescaped(part: string) returns (cut: Option<(string, string)>)
    ensures cut == CutFrom(part, false)
  {
    var escaped, i := false, 0;
    assert part[0..] == part;
    CutAfterTwice("", "", CutFrom(part, false));
    while i < |part|
      invariant 0 <= i <= |part|
      invariant CutFrom(part, false) == CutAfter(part[..i], CutFrom(part[i..], escaped))
    {
      assert part[i..][1..] == part[i + 1..] && part[..i] + [part[i]] == part[..i + 1];
      assert part[..i] + "" == part[..i];
      CutAfterTwice(part[..i], [part[i]], CutFrom(part[i + 1..], !escaped && part[i] == '\\'));
      if escaped {
        escaped := false;
      } else if part[i] == '\\' {
        escaped := true;
      } else if part[i] == '=' {
        return Some((part[..i], part[i + 1..]));
      }
      i := i + 1;
    }
    return None;
  }

  // ---- Escaping ----

  function UnescapeFrom(s: string, escaped: bool): string {
    if s == "" then (if escaped then "\\" else "")
    else if !escaped && s[0] == '\\' then UnescapeFrom(s[1..], true)
    else [s[0]] + UnescapeFrom(s[1..], false)
  }

  method Unescape(value: string) returns (r: string)
    ensures r == UnescapeFrom(value, false)
  {
    r := "";
    var escaped, i := false, 0;
    while i < |value|
      invariant 0 <= i <= |value|
      invariant UnescapeFrom(value, false) == r + UnescapeFrom(value[i..], escaped)
    {
      assert value[i..][1..] == value[i + 1..];
      if escaped {
        r := r + [value[i]];
        escaped := false;
      } else if value[i] == '\\' {
        escaped := true;
      } else {
        r := r + [value[i]];
      }
      i := i + 1;
    }
    if escaped {
      r := r + "\\";
    }
  }

  /** A backslash stands for the character after it, whichever it is; at the end it stands for
      itself. Anything else stands for itself. */
  lemma UnescapeReads(c: char, rest: string)
    ensures UnescapeFrom("\\" + [c] + rest, false) == [c] + UnescapeFrom(rest, false)
    ensures c != '\\' ==> UnescapeFrom([c] + rest, false) == [c] + UnescapeFrom(rest, false)
    ensures UnescapeFrom("\\", false) == "\\"
  {
    var s := "\\" + [c] + rest;
    assert s[1..] == [c] + rest && ([c] + rest)[1..] == rest;
  }

  predicate Special(c: char) {
    c == '\\' || c == ',' || c == '='
  }

  function EscapedChar(c: char): string {
    if Special(c) then ['\\', c] else [c]
  }

  function Escape(s: string): string {
    if s == "" then "" else EscapedChar(s[0]) + Escape(s[1..])
  }

  lemma {:induction false} EscapeAppend(a: string, b: string)
    ensures Escape(a + b) == Escape(a) + Escape(b)
  {
    if a == "" {
      assert a + b == b;
    } else {
      assert (a + b)[1..] == a[1..] + b;
      EscapeAppend(a[1..], b);
    }
  }

  lemma {:induction false} UnescapeEscape(s: string)
    ensures UnescapeFrom(Escape(s), false) == s
  {
    if s != "" {
      UnescapeEscape(s[1..]);
      assert Escape(s)[1..] == (if Special(s[0]) then [s[0]] else "") + Escape(s[1..]);
      if Special(s[0]) {
        assert Escape(s)[1..][1..] == Escape(s[1..]);
      }
    }
  }

  /** Read from an unescaped position, `s` has no unescaped comma and ends unescaped. */
  predicate Closed(s: string, escaped: bool) {
    if s == "" then !escaped
    else (escaped || s[0] != ',') && Closed(s[1..], !escaped && s[0] == '\\')
  }

  lemma {:induction false} ClosedAppend(a: string, b: string, escaped: bool)
    requires Closed(a, escaped) && Closed(b, false)
    ensures Closed(a + b, escaped)
  {
    if a == "" {
      assert a + b == b;
    } else {
      assert (a + b)[1..] == a[1..] + b;
      ClosedAppend(a[1..], b, !escaped && a[0] == '\\');
    }
  }

  lemma {:induction false} EscapeIsClosed(s: string)
    ensures Closed(Escape(s), false)
  {
    if s != "" {
      EscapeIsClosed(s[1..]);
      if Special(s[0]) {
        assert EscapedChar(s[0])[1..] == [s[0]];
      }
      ClosedAppend(EscapedChar(s[0]), Escape(s[1..]), false);
    }
  }

  lemma {:induction false} SplitClosed(p: string, rest: string, escaped: bool)
    requires Closed(p, escaped)
    ensures SplitFrom(p + rest, escaped) == Prefixed(p, SplitFrom(rest, false))
  {
    var parts := SplitFrom(rest, false);
    if p == "" {
      assert p + rest == rest && p + parts[0] == parts[0];
    } else {
      assert (p + rest)[1..] == p[1..] + rest;
      SplitClosed(p[1..], rest, !escaped && p[0] == '\\');
      assert [p[0]] + (p[1..] + parts[0]) == p + parts[0];
    }
  }

  /** Closed parts survive joining and splitting. */
  lemma {:induction false} SplitJoin(parts: seq<string>)
    requires parts != [] && forall p | p in parts :: Closed(p, false)
    ensures SplitFrom(Join(parts), false) == parts
  {
    if |parts| == 1 {
      SplitClosed(parts[0], "", false);
      assert parts[0] + "" == parts[0];
    } else {
      var rest := Join(parts[1..]);
      SplitJoin(parts[1..]);
      SplitClosed(parts[0], "," + rest, false);
      assert ("," + rest)[1..] == rest;
      assert SplitFrom("," + rest, false) == [""] + parts[1..];
      assert parts[0] + "" == parts[0];
      assert parts[0] + "," + rest == parts[0] + ("," + rest);
    }
  }

  lemma SplitJoined(parts: seq<string>)
    requires forall p | p in parts :: Closed(p, false) && p != ""
    ensures Split(Join(parts)) == parts
  {
    if parts != [] {
      SplitJoin(parts);
      assert parts[0] in parts;
      assert parts[0] <= Join(parts);
    }
  }

  lemma CutSkipsPlain(c: char, rest: string)
    requires !Special(c)
    ensures CutFrom([c] + rest, false) == CutAfter([c], CutFrom(rest, false))
  {
    assert ([c] + rest)[1..] == rest;
  }

  lemma CutSkipsEscaped(c: char, rest: string)
    ensures CutFrom(['\\', c] + rest, false) == CutAfter(['\\', c], CutFrom(rest, false))
  {
    var all := ['\\', c] + rest;
    assert all[1..] == [c] + rest && ([c] + rest)[1..] == rest;
    assert CutFrom([c] + rest, true) == CutAfter([c], CutFrom(rest, false));
    CutAfterTwice(['\\'], [c], CutFrom(rest, false));
    assert ['\\'] + [c] == ['\\', c];
  }

  lemma {:induction false} CutEscaped(k: string, w: string)
    ensures CutFrom(Escape(k) + "=" + w, false) == Some((Escape(k), w))
  {
    var all := Escape(k) + "=" + w;
    if k == "" {
      assert all[1..] == w;
    } else {
      var rest := Escape(k[1..]) + "=" + w;
      CutEscaped(k[1..], w);
      assert all == EscapedChar(k[0]) + rest;
      if Special(k[0]) {
        CutSkipsEscaped(k[0], rest);
      } else {
        CutSkipsPlain(k[0], rest);
      }
    }
  }

  lemma {:induction false} TrimRightOfEscape(v: string)
    ensures TrimRight(Escape(v)) == Escape(TrimRight(v))
  {
    if v != "" {
      var front, last := v[..|v| - 1], v[|v| - 1];
      assert v == front + [last];
      EscapeAppend(front, [last]);
      assert Escape([last]) == EscapedChar(last) + Escape("") == EscapedChar(last);
      assert Escape(v) == Escape(front) + EscapedChar(last);
      if IsSpace(last) {
        assert Escape(v)[..|Escape(v)| - 1] == Escape(front);
        TrimRightOfEscape(front);
      } else {
        assert Escape(v)[|Escape(v)| - 1] == last;
      }
    }
  }

  // ---- Parsing ----

  /** The attribute one part stands for, if any. */
  function EntryOf(part: string): Option<(string, string)> {
    var cut := CutFrom(Trim(part), false);
    if cut == None then None
    else
      var key, value := Trim(UnescapeFrom(cut.value.0, false)), Trim(UnescapeFrom(cut.value.1, false));
      if key == "" || value == "" then None else Some((key, value))
  }

  /** Blanks around a part count for nothing, not even after a backslash. */
  lemma BlanksAroundPartIgnored(part: string)
    ensures EntryOf(part) == EntryOf(Trim(part))
  {
    TrimIsTrimmed(part);
    TrimIsTrimmed(Trim(part));
  }

  function ParseParts(parts: seq<string>): map<string, string> {
    if parts == [] then map[]
    else
      var before, entry := ParseParts(parts[..|parts| - 1]), EntryOf(parts[|parts| - 1]);
      if entry == None then before else before[entry.value.0 := entry.value.1]
  }

  function Parse(raw: string): map<string, string> {
    ParseParts(Split(raw))
  }

  method ParseAttributes(raw: string) returns (values: map<string, string>)
    ensures values == Parse(raw)
  {
    values := map[];
    var parts := SplitAttributes(raw);
    for i := 0 to |parts|
      invariant values == ParseParts(parts[..i])
    {
      assert parts[..i + 1][..i] == parts[..i];
      var part := Trim(parts[i]);
      if part == "" {
        continue;
      }
      var cut := CutUnescaped(part);
      if cut == None {
        continue;
      }
      var key := Unescape(cut.value.0);
      var value := Unescape(cut.value.1);
      key, value := Trim(key), Trim(value);
      if key == "" || value == "" {
        continue;
      }
      values := values[key := value];
    }
    assert parts[..|parts|] == parts;
  }

  /** Keys and values without blanks around them, none of them empty. */
  predicate Tidy(m: map<string, string>) {
    forall k | k in m :: k != "" && m[k] != "" && Trimmed(k) && Trimmed(m[k])
  }

  lemma {:induction false} ParsePartsTidy(parts: seq<string>)
    ensures Tidy(ParseParts(parts))
  {
    if parts != [] {
      ParsePartsTidy(parts[..|parts| - 1]);
      var cut := CutFrom(Trim(parts[|parts| - 1]), false);
      if cut.Some? {
        TrimIsTrimmed(UnescapeFrom(cut.value.0, false));
        TrimIsTrimmed(UnescapeFrom(cut.value.1, false));
      }
    }
  }

  // ---- Printing in sorted order ----

  function PartOf(k: string, v: string): string {
    Escape(k) + "=" + Escape(v)
  }

  function PartsOf(m: map<string, string>, keys: seq<string>): (parts: seq<string>)
    requires forall k | k in keys :: k in m
    ensures |parts| == |keys|
    ensures forall i | 0 <= i < |keys| :: parts[i] == PartOf(keys[i], m[keys[i]])
  {
    if keys == [] then []
    else PartsOf(m, keys[..|keys| - 1]) + [PartOf(keys[|keys| - 1], m[keys[|keys| - 1]])]
  }

  ghost function Print(m: map<string, string>): string {
    ElementsOf(SortedKeys(m.Keys));
    Join(PartsOf(m, SortedKeys(m.Keys)))
  }

  /** The entries of `reserved` that a merge takes. */
  function Usable(reserved: map<string, string>): map<string, string> {
    map k | k in reserved && Trim(k) != "" && Trim(reserved[k]) != "" :: reserved[k]
  }

  ghost function Merge(existing: string, reserved: map<string, string>): string {
    Print(Parse(existing) + Usable(reserved))
  }

  method PrintAttributes(values: map<string, string>) returns (printed: string)
    ensures printed == Print(values)
  {
    var keys := SortedElements(values.Keys);
    ElementsOf(keys);
    var parts := [];
    for i := 0 to |keys|
      invariant parts == PartsOf(values, keys[..i])
    {
      assert keys[..i + 1][..i] == keys[..i];
      parts := parts + [Escape(keys[i]) + "=" + Escape(values[keys[i]])];
    }
    assert keys[..|keys|] == keys;
    return Join(parts);
  }

  /** The reserved entries outside `rest` have been taken. */
  ghost function Taken(parsed: map<string, string>, usable: map<string, string>, rest: set<string>)
    : map<string, string>
  {
    parsed + (usable - rest)
  }

  lemma TakeOne(parsed: map<string, string>, usable: map<string, string>, rest: set<string>, key: string)
    requires key in rest
    ensures Taken(parsed, usable, rest - {key})
         == if key in usable then Taken(parsed, usable, rest)[key := usable[key]] else Taken(parsed, usable, rest)
  {}

  lemma TakeNoneOrAll(parsed: map<string, string>, usable: map<string, string>, keys: set<string>)
    requires usable.Keys <= keys
    ensures Taken(parsed, usable, keys) == parsed && Taken(parsed, usable, {}) == parsed + usable
  {}

  /** The entries of `reserved` are visited in any order. */
  method Override(parsed: map<string, string>, reserved: map<string, string>) returns (values: map<string, string>)
    ensures values == parsed + Usable(reserved)
  {
    values := parsed;
    var rest := reserved.Keys;
    TakeNoneOrAll(parsed, Usable(reserved), rest);
    while rest != {}
      invariant rest <= reserved.Keys
      invariant values == Taken(parsed, Usable(reserved), rest)
      decreases rest
    {
      var key :| key in rest;
      TakeOne(parsed, Usable(reserved), rest, key);
      rest := rest - {key};
      if Trim(key) != "" && Trim(reserved[key]) != "" {
        values := values[key := reserved[key]];
      }
    }
  }

  method MergeAttributes(existing: string, reserved: map<string, string>) returns (merged: string)
    ensures merged == Merge(existing, reserved)
  {
    var values := ParseAttributes(existing);
    values := Override(values, reserved);
    merged := PrintAttributes(values);
  }

  // ---- What is printed is read back ----

  lemma PartIsClosed(k: string, v: string)
    ensures Closed(PartOf(k, v), false) && PartOf(k, v) != ""
  {
    EscapeIsClosed(k);
    EscapeIsClosed(v);
    ClosedAppend(Escape(k), "=", false);
    ClosedAppend(Escape(k) + "=", Escape(v), false);
  }

  lemma {:induction false} TrimLeftOfEscape(v: string)
    ensures TrimLeft(Escape(v)) == Escape(TrimLeft(v))
  {
    if v != "" {
      assert !IsSpace('\\');
      if IsSpace(v[0]) {
        assert Escape(v)[1..] == Escape(v[1..]);
        TrimLeftOfEscape(v[1..]);
      } else {
        assert Escape(v)[0] == EscapedChar(v[0])[0];
      }
    }
  }

  lemma NotBlank(s: string)
    requires Trim(s) != ""
    ensures TrimLeft(s) != "" && TrimRight(s) != ""
    ensures Trim(TrimLeft(s)) == Trim(s) == Trim(TrimRight(s))
  {
    TrimsCommute(s);
    TrimForgetsTrimLeft(s);
    TrimForgetsTrimRight(s);
  }

  lemma TrimAround(a: string, b: string, c: string)
    requires TrimLeft(a) != "" && TrimRight(c) != ""
    ensures Trim(a + b + c) == TrimLeft(a) + b + TrimRight(c)
  {
    assert a + b + c == a + (b + c);
    TrimLeftAppend(a, b + c);
    assert TrimLeft(a) + (b + c) == (TrimLeft(a) + b) + c;
    TrimRightAppend(TrimLeft(a) + b, c);
  }

  lemma TrimOfPart(k: string, v: string)
    requires Trim(k) != "" && Trim(v) != ""
    ensures Trim(PartOf(k, v)) == PartOf(TrimLeft(k), TrimRight(v))
  {
    NotBlank(k);
    NotBlank(v);
    TrimLeftOfEscape(k);
    TrimRightOfEscape(v);
    TrimAround(Escape(k), "=", Escape(v));
  }

  /** A printed part is read as its key and value, both trimmed. */
  lemma PartReadsBack(k: string, v: string)
    requires Trim(k) != "" && Trim(v) != ""
    ensures EntryOf(PartOf(k, v)) == Some((Trim(k), Trim(v)))
  {
    TrimOfPart(k, v);
    NotBlank(k);
    NotBlank(v);
    CutEscaped(TrimLeft(k), Escape(TrimRight(v)));
    UnescapeEscape(TrimLeft(k));
    UnescapeEscape(TrimRight(v));
  }

  /** No key and no value is blank. */
  predicate Solid(m: map<string, string>) {
    forall k | k in m :: Trim(k) != "" && Trim(m[k]) != ""
  }

  /** Later entries override earlier ones. */
  function Collect(entries: seq<(string, string)>): map<string, string> {
    if entries == [] then map[]
    else
      var last := entries[|entries| - 1];
      Collect(entries[..|entries| - 1])[last.0 := last.1]
  }

  lemma {:induction false} ParsesTo(parts: seq<string>, entries: seq<(string, string)>)
    requires |parts| == |entries|
    requires forall i | 0 <= i < |parts| :: EntryOf(parts[i]) == Some(entries[i])
    ensures ParseParts(parts) == Collect(entries)
  {
    if parts != [] {
      var last := |parts| - 1;
      ParsesTo(parts[..last], entries[..last]);
      assert EntryOf(parts[last]) == Some(entries[last]);
    }
  }

  lemma {:induction false} Collected(entries: seq<(string, string)>)
    ensures forall e | e in entries :: e.0 in Collect(entries)
    ensures forall t | t in Collect(entries) :: (t, Collect(entries)[t]) in entries
  {
    if entries != [] {
      Collected(entries[..|entries| - 1]);
    }
  }

  predicate Read(m: map<string, string>, k: string, t: string, v: string) {
    k in m && Trim(k) == t && Trim(m[k]) == v
  }

  function EntriesOf(m: map<string, string>, keys: seq<string>): (entries: seq<(string, string)>)
    requires forall k | k in keys :: k in m
    ensures |entries| == |keys|
    ensures forall i | 0 <= i < |keys| :: entries[i] == (Trim(keys[i]), Trim(m[keys[i]]))
  {
    if keys == [] then []
    else EntriesOf(m, keys[..|keys| - 1]) + [(Trim(keys[|keys| - 1]), Trim(m[keys[|keys| - 1]]))]
  }

  lemma PartsReadBack(m: map<string, string>, keys: seq<string>)
    requires Solid(m) && forall k | k in keys :: k in m
    ensures ParseParts(PartsOf(m, keys)) == Collect(EntriesOf(m, keys))
  {
    var parts, entries := PartsOf(m, keys), EntriesOf(m, keys);
    forall i | 0 <= i < |parts| ensures EntryOf(parts[i]) == Some(entries[i]) {
      PartReadsBack(keys[i], m[keys[i]]);
    }
    ParsesTo(parts, entries);
  }

  lemma CollectedReads(m: map<string, string>, keys: seq<string>)
    requires forall k :: k in keys <==> k in m
    ensures forall k | k in m :: Trim(k) in Collect(EntriesOf(m, keys))
    ensures forall t | t in Collect(EntriesOf(m, keys)) :: exists k :: Read(m, k, t, Collect(EntriesOf(m, keys))[t])
  {
    var entries := EntriesOf(m, keys);
    Collected(entries);
    forall k | k in m ensures Trim(k) in Collect(entries) {
      var i :| 0 <= i < |keys| && keys[i] == k;
      assert entries[i] in entries;
    }
    forall t | t in Collect(entries) ensures exists k :: Read(m, k, t, Collect(entries)[t]) {
      var i :| 0 <= i < |entries| && entries[i] == (t, Collect(entries)[t]);
      assert Read(m, keys[i], t, Collect(entries)[t]);
    }
  }

  lemma SplitPrint(m: map<string, string>)
    ensures forall k :: k in SortedKeys(m.Keys) <==> k in m
    ensures Split(Print(m)) == PartsOf(m, SortedKeys(m.Keys))
  {
    var keys := SortedKeys(m.Keys);
    ElementsOf(keys);
    forall p | p in PartsOf(m, keys) ensures Closed(p, false) && p != "" {
      var i :| 0 <= i < |keys| && PartsOf(m, keys)[i] == p;
      PartIsClosed(keys[i], m[keys[i]]);
    }
    SplitJoined(PartsOf(m, keys));
  }

  /** What reading back a printed map gives, blanks around keys and values included. */
  lemma ParsePrintReads(m: map<string, string>)
    requires Solid(m)
    ensures var q := Parse(Print(m));
            && (forall k | k in m :: Trim(k) in q)
            && (forall t | t in q :: exists k :: Read(m, k, t, q[t]))
  {
    SplitPrint(m);
    PartsReadBack(m, SortedKeys(m.Keys));
    CollectedReads(m, SortedKeys(m.Keys));
  }

  /** Keys without blanks around them, values at least not blank. */
  predicate Printable(m: map<string, string>) {
    forall k | k in m :: k != "" && Trimmed(k) && Trim(m[k]) != ""
  }

  lemma ReadsExactly(m: map<string, string>, q: map<string, string>)
    requires forall k | k in m :: Trim(k) == k && k in q
    requires forall t | t in q :: exists k :: Read(m, k, t, q[t])
    ensures q == map k | k in m :: Trim(m[k])
  {
    forall t | t in q ensures t in m && q[t] == Trim(m[t]) {
      var k :| Read(m, k, t, q[t]);
    }
  }

  /** Parsing what was printed gives back the map, each value trimmed. */
  lemma ParsePrint(m: map<string, string>)
    requires Printable(m)
    ensures Parse(Print(m)) == map k | k in m :: Trim(m[k])
  {
    forall k | k in m ensures Trim(k) == k && Trim(k) != "" {
      TrimIsTrimmed(k);
    }
    ParsePrintReads(m);
    ReadsExactly(m, Parse(Print(m)));
  }

  lemma TidyIsPrintable(m: map<string, string>)
    requires Tidy(m)
    ensures Printable(m) && Solid(m) && (map k | k in m :: Trim(m[k])) == m
  {
    forall k | k in m ensures Trim(k) == k && Trim(m[k]) == m[k] {
      TrimIsTrimmed(k);
      TrimIsTrimmed(m[k]);
    }
  }

  /** On tidy maps printing and parsing are inverse. */
  lemma RoundTrip(m: map<string, string>)
    requires Tidy(m)
    ensures Parse(Print(m)) == m
  {
    TidyIsPrintable(m);
    ParsePrint(m);
  }

  lemma PartIsInjective(k: string, v: string, k': string, v': string)
    requires PartOf(k, v) == PartOf(k', v')
    ensures k == k' && v == v'
  {
    CutEscaped(k, Escape(v));
    CutEscaped(k', Escape(v'));
    UnescapeEscape(k);
    UnescapeEscape(k');
    UnescapeEscape(v);
    UnescapeEscape(v');
  }

  lemma SameParts(m: map<string, string>, keys: seq<string>, other: map<string, string>, keys': seq<string>)
    requires (forall k | k in keys :: k in m) && (forall k | k in keys' :: k in other)
    requires PartsOf(m, keys) == PartsOf(other, keys')
    ensures keys == keys' && forall k | k in keys :: m[k] == other[k]
  {
    assert |keys| == |PartsOf(m, keys)| == |PartsOf(other, keys')| == |keys'|;
    forall i | 0 <= i < |keys| ensures keys[i] == keys'[i] && m[keys[i]] == other[keys'[i]] {
      assert PartOf(keys[i], m[keys[i]]) == PartsOf(m, keys)[i] == PartOf(keys'[i], other[keys'[i]]);
      PartIsInjective(keys[i], m[keys[i]], keys'[i], other[keys'[i]]);
    }
  }

  /** Different maps are printed differently, blanks and all. */
  lemma PrintIsInjective(m: map<string, string>, other: map<string, string>)
    requires Print(m) == Print(other)
    ensures m == other
  {
    SplitPrint(m);
    SplitPrint(other);
    SameParts(m, SortedKeys(m.Keys), other, SortedKeys(other.Keys));
    assert m.Keys == other.Keys;
  }

  // ---- The merge law ----

  /** Whatever `raw` contains, the merged text parses to what `raw` parses to, overridden by
      the usable reserved entries — exactly when those have no blanks around them. */
  lemma MergeLaw(raw: string, reserved: map<string, string>)
    ensures Parse(Merge(raw, reserved)) == Parse(raw) + Usable(reserved) <==> Tidy(Usable(reserved))
  {
    var usable := Usable(reserved);
    ParsePartsTidy(Split(raw));
    ParsePartsTidy(Split(Merge(raw, reserved)));
    if Tidy(usable) {
      RoundTrip(Parse(raw) + usable);
    } else {
      var k :| k in usable && !(k != "" && usable[k] != "" && Trimmed(k) && Trimmed(usable[k]));
      assert k in Parse(raw) + usable && (Parse(raw) + usable)[k] == usable[k];
    }
  }

  ghost predicate Stable(raw: string, reserved: map<string, string>) {
    Merge(Merge(raw, reserved), reserved) == Merge(raw, reserved)
  }

  /** A key that is taken is also taken without the blanks around it. */
  predicate TrimmedKeysToo(usable: map<string, string>) {
    forall k | k in usable :: Trim(k) in usable
  }

  lemma OverriddenIsSolid(p: map<string, string>, reserved: map<string, string>)
    requires Tidy(p)
    ensures Solid(p + Usable(reserved))
  {
    TidyIsPrintable(p);
  }

  lemma TidyIsTrimmed(p: map<string, string>, k: string)
    requires Tidy(p) && k in p
    ensures Trim(k) == k && Trim(p[k]) == p[k]
  {
    TrimIsTrimmed(k);
    TrimIsTrimmed(p[k]);
  }

  lemma ReadFromParsed(p: map<string, string>, u: map<string, string>, t: string, v: string, k: string)
    requires Tidy(p) && TrimmedKeysToo(u) && t !in u && Read(p + u, k, t, v)
    ensures t in p && v == p[t]
  {
    assert k !in u;
    TidyIsTrimmed(p, k);
  }

  /** What is read back from `p` overridden by `u`, overridden by `u` again. */
  lemma OverriddenAgain(p: map<string, string>, u: map<string, string>, q: map<string, string>)
    requires Tidy(p) && TrimmedKeysToo(u)
    requires forall k | k in p + u :: Trim(k) in q
    requires forall t | t in q :: exists k :: Read(p + u, k, t, q[t])
    ensures q + u == p + u
  {
    forall t | t in q && t !in u ensures t in p && q[t] == p[t] {
      var k :| Read(p + u, k, t, q[t]);
      ReadFromParsed(p, u, t, q[t], k);
    }
    forall k | k in p ensures k in q {
      TidyIsTrimmed(p, k);
      assert k in p + u;
    }
    SameOverride(p, u, q);
  }

  lemma SameOverride(p: map<string, string>, u: map<string, string>, q: map<string, string>)
    requires forall t | t in q && t !in u :: t in p && q[t] == p[t]
    requires forall k | k in p :: k in q
    ensures q + u == p + u
  {}

  lemma MergedAgain(raw: string, reserved: map<string, string>)
    requires TrimmedKeysToo(Usable(reserved))
    ensures Stable(raw, reserved)
  {
    ParsePartsTidy(Split(raw));
    OverriddenIsSolid(Parse(raw), reserved);
    ParsePrintReads(Parse(raw) + Usable(reserved));
    OverriddenAgain(Parse(raw), Usable(reserved), Parse(Merge(raw, reserved)));
  }

  lemma FreshMergeUnstable(reserved: map<string, string>, k: string)
    requires k in Usable(reserved) && Trim(k) !in Usable(reserved)
    ensures !Stable("", reserved)
  {
    var usable := Usable(reserved);
    assert Parse("") + usable == usable;
    ParsePrintReads(usable);
    var again := Parse(Print(usable)) + usable;
    assert Trim(k) in again;
    if Stable("", reserved) {
      PrintIsInjective(again, usable);
    }
  }

  /** Exactly when merging the same entries again changes not a character of any text: when
      every key that is taken is also taken without the blanks around it. Values may have
      blanks around them. */
  lemma MergeIsIdempotentIff(reserved: map<string, string>)
    ensures (forall raw :: Stable(raw, reserved)) <==> TrimmedKeysToo(Usable(reserved))
  {
    if TrimmedKeysToo(Usable(reserved)) {
      forall raw ensures Stable(raw, reserved) {
        MergedAgain(raw, reserved);
      }
    } else {
      var k :| k in Usable(reserved) && Trim(k) !in Usable(reserved);
      FreshMergeUnstable(reserved, k);
    }
  }

  /** The text a merge answers depends on `raw` only through what it parses to. */
  lemma MergeIsCanonical(raw: string, other: string, reserved: map<string, string>)
    ensures Merge(raw, reserved) == Merge(other, reserved)
       <==> Parse(raw) + Usable(reserved) == Parse(other) + Usable(reserved)
  {
    if Merge(raw, reserved) == Merge(other, reserved) {
      PrintIsInjective(Parse(raw) + Usable(reserved), Parse(other) + Usable(reserved));
    }
  }

  // ---- The environment of a workload ----

  function Replaced(s: string): (r: string)
    ensures |r| == |s|
    ensures forall i | 0 <= i < |s| :: r[i] == if s[i] == ',' || s[i] == '=' then '_' else s[i]
  {
    if s == "" then "" else [if s[0] == ',' || s[0] == '=' then '_' else s[0]] + Replaced(s[1..])
  }

  function Sanitize(value: string): string {
    if Trim(value) == "" then "unknown" else Replaced(Trim(value))
  }

  lemma SanitizeIsTidy(value: string)
    ensures Sanitize(value) != "" && Trimmed(Sanitize(value))
    ensures forall c | c in Sanitize(value) :: c != ',' && c != '='
    ensures Trim(value) == "" ==> Sanitize(value) == "unknown"
    ensures Trim(value) != "" ==>
              && |Sanitize(value)| == |Trim(value)|
              && forall i | 0 <= i < |Trim(value)| && Trim(value)[i] != ',' && Trim(value)[i] != '=' ::
                   Sanitize(value)[i] == Trim(value)[i]
  {
    TrimIsTrimmed(value);
    var r := Sanitize(value);
    forall c | c in r ensures c != ',' && c != '=' {
      var i :| 0 <= i < |r| && r[i] == c;
    }
  }

  const ENDPOINT := "OTEL_EXPORTER_OTLP_ENDPOINT"
  const PROTOCOL := "OTEL_EXPORTER_OTLP_PROTOCOL"
  const SERVICE_NAME := "OTEL_SERVICE_NAME"
  const ATTRIBUTES := "OTEL_RESOURCE_ATTRIBUTES"
  const SERVICE_ID := "mini_cloud.service_id"
  const EXECUTION_ID := "mini_cloud.execution_id"
  const PLATFORM_NAME := "mini_cloud.platform_name"

  datatype Item = Item(serviceName: string, serviceId: string, executionId: string)

  datatype Options = Options(platformName: string, endpoint: string)

  function Lookup(env: map<string, string>, key: string): string {
    if key in env then env[key] else ""
  }

  function ReservedFor(item: Item, opts: Options): map<string, string> {
    var identity := map[SERVICE_ID := Sanitize(item.serviceId), EXECUTION_ID := Sanitize(item.executionId)];
    if Trim(opts.platformName) != "" then identity[PLATFORM_NAME := Sanitize(opts.platformName)] else identity
  }

  lemma TidyIsUsable(m: map<string, string>)
    requires Tidy(m)
    ensures Usable(m) == m
  {
    forall k | k in m ensures Trim(k) == k && Trim(m[k]) == m[k] {
      TrimIsTrimmed(k);
      TrimIsTrimmed(m[k]);
    }
  }

  lemma TidyWith(m: map<string, string>, k: string, v: string)
    requires Tidy(m) && k != "" && v != "" && Trimmed(k) && Trimmed(v)
    ensures Tidy(m[k := v])
  {}

  lemma ReservedIsTidy(item: Item, opts: Options)
    ensures Tidy(ReservedFor(item, opts))
  {
    SanitizeIsTidy(item.serviceId);
    SanitizeIsTidy(item.executionId);
    SanitizeIsTidy(opts.platformName);
    TidyWith(map[], SERVICE_ID, Sanitize(item.serviceId));
    TidyWith(map[SERVICE_ID := Sanitize(item.serviceId)], EXECUTION_ID, Sanitize(item.executionId));
    TidyWith(map[SERVICE_ID := Sanitize(item.serviceId), EXECUTION_ID := Sanitize(item.executionId)],
             PLATFORM_NAME, Sanitize(opts.platformName));
  }

  /** The attributes handed to the workload are the user's, overridden by the identity of the
      execution, whatever the user wrote and whatever the identifiers contain. */
  lemma IdentityWins(raw: string, item: Item, opts: Options)
    ensures Parse(Merge(raw, ReservedFor(item, opts))) == Parse(raw) + ReservedFor(item, opts)
  {
    ReservedIsTidy(item, opts);
    TidyIsUsable(ReservedFor(item, opts));
    MergeLaw(raw, ReservedFor(item, opts));
  }

  lemma ReservedIs(item: Item, opts: Options)
    ensures
      var r := ReservedFor(item, opts);
      && "mini_cloud.service_id" in r && r["mini_cloud.service_id"] == Sanitize(item.serviceId)
      && "mini_cloud.execution_id" in r && r["mini_cloud.execution_id"] == Sanitize(item.executionId)
      && ("mini_cloud.platform_name" in r <==> Trim(opts.platformName) != "")
      && (Trim(opts.platformName) != "" ==> r["mini_cloud.platform_name"] == Sanitize(opts.platformName))
      && forall k | k in r :: k == SERVICE_ID || k == EXECUTION_ID || k == PLATFORM_NAME
  {
    assert SERVICE_ID[11] == 's' && EXECUTION_ID[11] == 'e' && PLATFORM_NAME[11] == 'p';
  }

  /** In so many words: the workload is told its service, its execution and, if it has a name, its
      platform; whatever else it is told the user wrote. */
  lemma WorkloadIsIdentified(raw: string, item: Item, opts: Options)
    ensures
      var told, own := Parse(Merge(raw, ReservedFor(item, opts))), Parse(raw);
      && "mini_cloud.service_id" in told && told["mini_cloud.service_id"] == Sanitize(item.serviceId)
      && "mini_cloud.execution_id" in told && told["mini_cloud.execution_id"] == Sanitize(item.executionId)
      && (Trim(opts.platformName) != "" ==>
            "mini_cloud.platform_name" in told && told["mini_cloud.platform_name"] == Sanitize(opts.platformName))
      && forall k | k != "mini_cloud.service_id" && k != "mini_cloud.execution_id"
                    && (k != "mini_cloud.platform_name" || Trim(opts.platformName) == "") ::
           (k in told <==> k in own) && (k in own ==> told[k] == own[k])
  {
    IdentityWins(raw, item, opts);
    ReservedIs(item, opts);
  }

  /** The exporter's variables are set exactly if there is an endpoint, the service name only if
      the user left it blank. */
  predicate ExporterSet(base: map<string, string>, item: Item, opts: Options, env: map<string, string>) {
    && Lookup(env, "OTEL_EXPORTER_OTLP_ENDPOINT")
       == (if Trim(opts.endpoint) != "" then Trim(opts.endpoint) else Lookup(base, "OTEL_EXPORTER_OTLP_ENDPOINT"))
    && Lookup(env, "OTEL_EXPORTER_OTLP_PROTOCOL")
       == (if Trim(opts.endpoint) != "" then "http/protobuf" else Lookup(base, "OTEL_EXPORTER_OTLP_PROTOCOL"))
    && Lookup(env, "OTEL_SERVICE_NAME")
       == (if Trim(Lookup(base, "OTEL_SERVICE_NAME")) == "" && Trim(item.serviceName) != ""
           then item.serviceName else Lookup(base, "OTEL_SERVICE_NAME"))
  }

  /** The variables have different names. */
  lemma VariablesDiffer()
    ensures ENDPOINT != PROTOCOL && ENDPOINT != SERVICE_NAME && ENDPOINT != ATTRIBUTES
    ensures PROTOCOL != SERVICE_NAME && PROTOCOL != ATTRIBUTES && SERVICE_NAME != ATTRIBUTES
  {
    assert ENDPOINT[5] == 'E' && PROTOCOL[5] == 'E' && SERVICE_NAME[5] == 'S' && ATTRIBUTES[5] == 'R';
    assert ENDPOINT[19] == 'E' && PROTOCOL[19] == 'P';
  }

  lemma AttributesApart(base: map<string, string>, item: Item, opts: Options, env: map<string, string>, merged: string)
    requires ExporterSet(base, item, opts, env)
    ensures ExporterSet(base, item, opts, env[ATTRIBUTES := merged])
    ensures Lookup(env[ATTRIBUTES := merged], ATTRIBUTES) == merged
  {
    VariablesDiffer();
  }

  /** Everything but the resource attributes. */
  method InjectExporterEnv(base: map<string, string>, item: Item, opts: Options) returns (env: map<string, string>)
    ensures forall k | k in base || k in env ::
              k != ENDPOINT && k != PROTOCOL && k != SERVICE_NAME ==> k in env && k in base && env[k] == base[k]
    ensures ExporterSet(base, item, opts, env)
  {
    VariablesDiffer();
    env := base;
    var endpoint := Trim(opts.endpoint);
    if endpoint != "" {
      env := env[ENDPOINT := endpoint][PROTOCOL := "http/protobuf"];
    }
    if Trim(Lookup(env, SERVICE_NAME)) == "" && Trim(item.serviceName) != "" {
      env := env[SERVICE_NAME := item.serviceName];
    }
  }

  /** The workload's attributes are the user's, overridden by the identity of the execution;
      the other variables are those of `InjectExporterEnv`. */
  method InjectTelemetryEnv(base: map<string, string>, item: Option<Item>, opts: Options)
    returns (env: map<string, string>)
    ensures item == None ==> env == base
    ensures item.Some? ==>
              Parse(Lookup(env, "OTEL_RESOURCE_ATTRIBUTES"))
              == Parse(Lookup(base, "OTEL_RESOURCE_ATTRIBUTES")) + ReservedFor(item.value, opts)
    ensures item.Some? ==> ExporterSet(base, item.value, opts, env)
    ensures forall k | k in base || k in env ::
              k != ENDPOINT && k != PROTOCOL && k != SERVICE_NAME && k != ATTRIBUTES ==>
                k in env && k in base && env[k] == base[k]
  {
    if item == None {
      return base;
    }
    env := InjectExporterEnv(base, item.value, opts);
    var raw := Lookup(env, ATTRIBUTES);
    assert raw == Lookup(base, ATTRIBUTES) by {
      VariablesDiffer();
    }
    var merged := MergeAttributes(raw, ReservedFor(item.value, opts));
    assert Parse(merged) == Parse(raw) + ReservedFor(item.value, opts) by {
      IdentityWins(raw, item.value, opts);
    }
    AttributesApart(base, item.value, opts, env, merged);
    env := env[ATTRIBUTES := merged];
  }
}

/** The pure part of the query-string translation done by
    `MongoAPIMixin.extract_query_args`: splitting a raw value on commas,
    Python's `int()` on each piece, the Int/Str/IntList/StrList decision,
    the `__` to `.` key rewrite, and the filter the whole loop builds. */
module QueryArgs {
  import opened Wrappers
  import opened Values

  // ---------------------------------------------------------------------
  // str.split(',')
  // ---------------------------------------------------------------------

  /** Python's `s.split(',')`: the pieces between commas, in order. It never
      returns an empty list; `"".split(',')` is `[""]`. */
  function Split(s: string): (pieces: seq<string>)
    ensures |pieces| >= 1
    decreases |s|
  {
    if s == [] then [""]
    else if s[0] == ',' then [""] + Split(s[1..])
    else
      var rest := Split(s[1..]);
      [[s[0]] + rest[0]] + rest[1..]
  }

  /** `','.join(pieces)`, the inverse of `Split`. */
  function Join(pieces: seq<string>): string
  {
    if |pieces| == 0 then ""
    else if |pieces| == 1 then pieces[0]
    else pieces[0] + "," + Join(pieces[1..])
  }

  /** Number of commas in `s`. */
  function Commas(s: string): nat
  {
    if s == [] then 0 else (if s[0] == ',' then 1 else 0) + Commas(s[1..])
  }

  predicate NoComma(piece: string) {
    forall j :: 0 <= j < |piece| ==> piece[j] != ','
  }

  /** There is exactly one more piece than there are commas. */
  lemma {:induction false} SplitLength(s: string)
    ensures |Split(s)| == Commas(s) + 1
    decreases |s|
  {
    if s != [] {
      SplitLength(s[1..]);
    }
  }

  /** No piece contains the separator. */
  lemma {:induction false} SplitPiecesHaveNoComma(s: string)
    ensures forall i :: 0 <= i < |Split(s)| ==> NoComma(Split(s)[i])
    decreases |s|
  {
    if s != [] {
      SplitPiecesHaveNoComma(s[1..]);
      var rest := Split(s[1..]);
      if s[0] != ',' {
        var first := [s[0]] + rest[0];
        assert NoComma(rest[0]);
        assert NoComma(first) by {
          forall j | 0 <= j < |first| ensures first[j] != ',' {
            if j > 0 { assert first[j] == rest[0][j - 1]; }
          }
        }
      }
    }
  }

  /** Prepending one character to a list of pieces extends the first piece. */
  lemma JoinConsFirst(c: char, pieces: seq<string>)
    requires |pieces| >= 1
    ensures Join([[c] + pieces[0]] + pieces[1..]) == [c] + Join(pieces)
  {
    var ps := [[c] + pieces[0]] + pieces[1..];
    if |pieces| > 1 {
      assert ps[1..] == pieces[1..];
    }
  }

  /** Joining the pieces gives the original string back. */
  lemma {:induction false} JoinSplit(s: string)
    ensures Join(Split(s)) == s
    decreases |s|
  {
    if s != [] {
      JoinSplit(s[1..]);
      var rest := Split(s[1..]);
      if s[0] == ',' {
        assert ([""] + rest)[1..] == rest;
      } else {
        JoinConsFirst(s[0], rest);
      }
      assert s == [s[0]] + s[1..];
    }
  }

  /** Splitting a comma-free prefix followed by a tail. */
  lemma {:induction false} SplitNoCommaPrefix(p: string, t: string)
    requires NoComma(p)
    ensures Split(p + t) == [p + Split(t)[0]] + Split(t)[1..]
    decreases |p|
  {
    if p != [] {
      assert (p + t)[1..] == p[1..] + t;
      assert NoComma(p[1..]) by {
        forall j | 0 <= j < |p[1..]| ensures p[1..][j] != ',' {
          assert p[1..][j] == p[j + 1];
        }
      }
      SplitNoCommaPrefix(p[1..], t);
      assert [p[0]] + (p[1..] + Split(t)[0]) == p + Split(t)[0];
    } else {
      assert p + t == t;
      assert p + Split(t)[0] == Split(t)[0];
      assert Split(t) == [Split(t)[0]] + Split(t)[1..];
    }
  }

  /** Splitting what was joined gives the pieces back, provided no piece
      contains a comma. */
  lemma {:induction false} SplitJoin(pieces: seq<string>)
    requires |pieces| >= 1
    requires forall i :: 0 <= i < |pieces| ==> NoComma(pieces[i])
    ensures Split(Join(pieces)) == pieces
    decreases |pieces|
  {
    if |pieces| == 1 {
      SplitNoCommaPrefix(pieces[0], "");
      assert pieces[0] + "" == pieces[0];
    } else {
      var t := Join(pieces[1..]);
      SplitJoin(pieces[1..]);
      assert Split("," + t) == [""] + Split(t);
      assert pieces[0] + "," + t == pieces[0] + ("," + t);
      SplitNoCommaPrefix(pieces[0], "," + t);
      assert pieces[0] + "" == pieces[0];
      assert ([""] + Split(t))[1..] == Split(t);
    }
  }

  // ---------------------------------------------------------------------
  // int(piece)
  // ---------------------------------------------------------------------

  predicate IsDigit(c: char) {
    '0' <= c <= '9'
  }

  predicate AllDigits(s: string) {
    forall i :: 0 <= i < |s| ==> IsDigit(s[i])
  }

  function DigitValue(c: char): (d: nat)
    requires IsDigit(c)
    ensures d < 10
  {
    (c as int) - ('0' as int)
  }

  function DigitChar(d: nat): (c: char)
    requires d < 10
    ensures IsDigit(c) && DigitValue(c) == d
  {
    (('0' as int) + d) as char
  }

  /** The value of a run of decimal digits, most significant first. */
  function DigitsValue(ds: string): nat
    requires AllDigits(ds)
    decreases |ds|
  {
    if ds == [] then 0
    else 10 * DigitsValue(ds[..|ds| - 1]) + DigitValue(ds[|ds| - 1])
  }

  /** The text Python's `int()` accepts in this model: an optional `+` or
      `-` followed by one or more ASCII digits. */
  predicate IsIntLiteral(s: string) {
    var digits := if |s| > 0 && (s[0] == '+' || s[0] == '-') then s[1..] else s;
    |digits| > 0 && AllDigits(digits)
  }

  /** `int(s)`: `None` stands for the `ValueError` it raises. */
  function ParseInt(s: string): (r: Option<int>)
    ensures r.Some? <==> IsIntLiteral(s)
    ensures r.Some? && |s| > 0 && s[0] == '-' ==> r.value <= 0
    ensures r.Some? && |s| > 0 && s[0] != '-' ==> r.value >= 0
  {
    if |s| > 0 && (s[0] == '+' || s[0] == '-') then
      var digits := s[1..];
      if |digits| > 0 && AllDigits(digits) then
        Some(if s[0] == '-' then -(DigitsValue(digits) as int) else DigitsValue(digits))
      else None
    else if |s| > 0 && AllDigits(s) then Some(DigitsValue(s))
    else None
  }

  /** The decimal text of a natural number, no leading zeros. */
  function NatToString(n: nat): (s: string)
    ensures |s| >= 1 && AllDigits(s)
    decreases n
  {
    if n < 10 then [DigitChar(n)]
    else NatToString(n / 10) + [DigitChar(n % 10)]
  }

  /** `str(n)` for an int. */
  function IntToString(n: int): (s: string)
    ensures NoComma(s)
  {
    if n < 0 then "-" + NatToString(-n) else NatToString(n)
  }

  lemma {:induction false} DigitsValueOfNatToString(n: nat)
    ensures DigitsValue(NatToString(n)) == n
    decreases n
  {
    if n >= 10 {
      DigitsValueOfNatToString(n / 10);
      var s := NatToString(n);
      assert s[..|s| - 1] == NatToString(n / 10);
    }
  }

  /** `int(str(n)) == n`: every integer the handler could be sent in its
      canonical form parses back to itself. */
  lemma ParseIntOfIntToString(n: int)
    ensures ParseInt(IntToString(n)) == Some(n)
  {
    if n < 0 {
      DigitsValueOfNatToString(-n);
      assert IntToString(n)[1..] == NatToString(-n);
    } else {
      DigitsValueOfNatToString(n);
    }
  }

  // ---------------------------------------------------------------------
  // The value rule of extract_query_args
  // ---------------------------------------------------------------------

  predicate AllInts(pieces: seq<string>) {
    forall i :: 0 <= i < |pieces| ==> ParseInt(pieces[i]).Some?
  }

  function IntsOf(pieces: seq<string>): (ints: seq<int>)
    requires AllInts(pieces)
    ensures |ints| == |pieces|
    ensures forall i :: 0 <= i < |pieces| ==> Some(ints[i]) == ParseInt(pieces[i])
  {
    seq(|pieces|, i requires 0 <= i < |pieces| => ParseInt(pieces[i]).value)
  }

  /** One raw query value turned into a filter value: split on commas; if
      every piece is an integer the value is an int (one piece) or the list
      of ints (several), otherwise the string (one piece) or the list of
      string pieces (several). */
  function ParseValue(raw: string): FilterValue
  {
    var pieces := Split(raw);
    if AllInts(pieces) then
      var ints := IntsOf(pieces);
      if |ints| == 1 then Int(ints[0]) else IntList(ints)
    else if |pieces| == 1 then Str(pieces[0])
    else StrList(pieces)
  }

  /** The full characterisation of `ParseValue`, in terms of the raw text:
      the integer cases happen exactly when every piece is an integer
      literal, the scalar cases exactly when there is no comma, a string
      scalar is the raw text itself, and a list has one element per comma
      plus one, in order. */
  lemma ParseValueCases(raw: string)
    ensures var v := ParseValue(raw);
      && (v.Int? || v.IntList?) == (forall i :: 0 <= i < |Split(raw)| ==> IsIntLiteral(Split(raw)[i]))
      && (v.Int? || v.Str?) == (Commas(raw) == 0)
      && (v.Str? ==> v.s == raw)
      && (v.Int? ==> ParseInt(raw) == Some(v.i))
      && (v.IntList? ==>
            (&& |v.ints| == Commas(raw) + 1
             && forall i :: 0 <= i < |v.ints| ==> ParseInt(Split(raw)[i]) == Some(v.ints[i])))
      && (v.StrList? ==>
            (&& |v.strs| == Commas(raw) + 1
             && Join(v.strs) == raw
             && forall i :: 0 <= i < |v.strs| ==> NoComma(v.strs[i])))
      && !v.Oid?
  {
    SplitLength(raw);
    JoinSplit(raw);
    SplitPiecesHaveNoComma(raw);
  }

  /** The inverse direction: the comma-joined decimal text of a non-empty
      list of integers parses back to that integer (one element) or that
      list (several). */
  lemma ParseValueOfRenderedInts(xs: seq<int>)
    requires |xs| >= 1
    ensures ParseValue(Join(IntStrings(xs))) == if |xs| == 1 then Int(xs[0]) else IntList(xs)
  {
    var pieces := IntStrings(xs);
    SplitJoin(pieces);
    forall i | 0 <= i < |xs| ensures ParseInt(pieces[i]) == Some(xs[i]) {
      ParseIntOfIntToString(xs[i]);
    }
    assert IntsOf(pieces) == xs;
  }

  function IntStrings(xs: seq<int>): (pieces: seq<string>)
    ensures |pieces| == |xs|
    ensures forall i :: 0 <= i < |xs| ==> pieces[i] == IntToString(xs[i]) && NoComma(pieces[i])
  {
    seq(|xs|, i requires 0 <= i < |xs| => IntToString(xs[i]))
  }

  lemma ExampleIntList()
    ensures ParseValue("1,2,3") == IntList([1, 2, 3])
  {
    assert IntToString(1) == "1" && IntToString(2) == "2" && IntToString(3) == "3";
    assert IntStrings([1, 2, 3]) == ["1", "2", "3"];
    assert Join(["3"]) == "3";
    assert Join(["2", "3"]) == "2,3";
    assert Join(["1", "2", "3"]) == "1,2,3";
    ParseValueOfRenderedInts([1, 2, 3]);
  }

  lemma ExampleStrList()
    ensures ParseValue("a,b") == StrList(["a", "b"])
  {
    SplitJoin(["a", "b"]);
    assert Join(["a", "b"]) == "a,b";
    assert ParseInt("a").None?;
  }

  lemma ExampleInt()
    ensures ParseValue("5") == Int(5)
  {
    assert IntToString(5) == "5";
    assert IntStrings([5]) == ["5"];
    ParseValueOfRenderedInts([5]);
  }

  // ---------------------------------------------------------------------
  // key.replace('__', '.')
  // ---------------------------------------------------------------------

  /** Python's `key.replace('__', '.')`: scans left to right and rewrites
      each non-overlapping `__` to `.`, so `___` becomes `._`. */
  function ReplaceDunder(key: string): (r: string)
    ensures |r| <= |key|
    ensures |key| > 0 ==> |r| > 0 && (r[0] == '.' || r[0] == key[0])
    ensures |key| >= 2 && key[0] == '_' && key[1] == '_' ==> r[0] == '.'
    decreases |key|
  {
    if |key| >= 2 && key[0] == '_' && key[1] == '_' then "." + ReplaceDunder(key[2..])
    else if key == [] then []
    else [key[0]] + ReplaceDunder(key[1..])
  }

  predicate HasDunder(s: string) {
    exists i :: 0 <= i < |s| - 1 && s[i] == '_' && s[i + 1] == '_'
  }

  /** A translated key never contains `__`. */
  lemma {:induction false} ReplaceDunderLeavesNoDunder(key: string)
    ensures !HasDunder(ReplaceDunder(key))
    decreases |key|
  {
    if |key| >= 2 && key[0] == '_' && key[1] == '_' {
      ReplaceDunderLeavesNoDunder(key[2..]);
      var tail := ReplaceDunder(key[2..]);
      var r := "." + tail;
      forall i | 0 <= i < |r| - 1 ensures !(r[i] == '_' && r[i + 1] == '_') {
        if i > 0 { assert r[i] == tail[i - 1] && r[i + 1] == tail[i]; }
      }
    } else if key != [] {
      ReplaceDunderLeavesNoDunder(key[1..]);
      var tail := ReplaceDunder(key[1..]);
      var r := [key[0]] + tail;
      forall i | 0 <= i < |r| - 1 ensures !(r[i] == '_' && r[i + 1] == '_') {
        if i > 0 { assert r[i] == tail[i - 1] && r[i + 1] == tail[i]; }
      }
    }
  }

  /** A key without `__` is left as it is. */
  lemma {:induction false} ReplaceDunderKeepsPlainKey(key: string)
    requires !HasDunder(key)
    ensures ReplaceDunder(key) == key
    decreases |key|
  {
    if key != [] {
      assert !HasDunder(key[1..]) by {
        forall i | 0 <= i < |key[1..]| - 1 ensures !(key[1..][i] == '_' && key[1..][i + 1] == '_') {
          assert key[1..][i] == key[i + 1] && key[1..][i + 1] == key[i + 2];
        }
      }
      ReplaceDunderKeepsPlainKey(key[1..]);
      assert key == [key[0]] + key[1..];
    }
  }

  /** A key without any underscore is left as it is. */
  lemma ReplaceDunderKeepsUnderscoreFreeKey(key: string)
    requires forall i :: 0 <= i < |key| ==> key[i] != '_'
    ensures ReplaceDunder(key) == key
  {
    ReplaceDunderKeepsPlainKey(key);
  }

  /** Translating twice is translating once. */
  lemma ReplaceDunderIdempotent(key: string)
    ensures ReplaceDunder(ReplaceDunder(key)) == ReplaceDunder(key)
  {
    ReplaceDunderLeavesNoDunder(key);
    ReplaceDunderKeepsPlainKey(ReplaceDunder(key));
  }

  lemma ExampleNestedKey()
    ensures ReplaceDunder("user__id") == "user.id"
  {
    assert "user__id"[1..] == "ser__id";
    assert "ser__id"[1..] == "er__id";
    assert "er__id"[1..] == "r__id";
    assert "r__id"[1..] == "__id";
    assert "__id"[2..] == "id";
    assert "id"[1..] == "d";
    assert "d"[1..] == "";
  }

  /** Every `__` becomes `.`: the text before the first `__` is kept, the
      pair turns into one `.`, and the rewrite carries on after it. */
  lemma {:induction false} ReplaceDunderSegment(a: string, b: string)
    requires !HasDunder(a) && (a == [] || a[|a| - 1] != '_')
    ensures ReplaceDunder(a + "__" + b) == a + "." + ReplaceDunder(b)
    decreases |a|
  {
    var key := a + "__" + b;
    if a == [] {
      assert key == "__" + b;
      assert key[2..] == b;
    } else {
      assert !(key[0] == '_' && key[1] == '_') by {
        if |a| >= 2 {
          assert !(a[0] == '_' && a[1] == '_');
        } else {
          assert key[0] == a[0] == a[|a| - 1];
        }
      }
      var a' := a[1..];
      assert !HasDunder(a') by {
        forall i | 0 <= i < |a'| - 1 ensures !(a'[i] == '_' && a'[i + 1] == '_') {
          assert a'[i] == a[i + 1] && a'[i + 1] == a[i + 2];
        }
      }
      assert a' == [] || a'[|a'| - 1] == a[|a| - 1];
      ReplaceDunderSegment(a', b);
      assert key[1..] == a' + "__" + b;
      assert a == [a[0]] + a';
    }
  }

  // ---------------------------------------------------------------------
  // The filter extract_query_args builds
  // ---------------------------------------------------------------------

  /** One entry of `request.query_arguments`: a key and its list of values,
      in the order the request carried them. */
  datatype QueryArg = QueryArg(name: string, values: seq<string>)

  /** Every key carries at least one value, as the HTTP layer guarantees. */
  predicate HasValues(args: seq<QueryArg>) {
    forall i :: 0 <= i < |args| ==> |args[i].values| > 0
  }

  function LastValue(arg: QueryArg): string
    requires |arg.values| > 0
  {
    arg.values[|arg.values| - 1]
  }

  /** `list_data.pop()`: the argument with its last value removed. */
  function PopLast(arg: QueryArg): (popped: QueryArg)
    requires |arg.values| > 0
    ensures popped.name == arg.name && popped.values + [LastValue(arg)] == arg.values
  {
    QueryArg(arg.name, arg.values[..|arg.values| - 1])
  }

  /** Every argument after the loop has popped its last value. */
  function PopAll(args: seq<QueryArg>): (popped: seq<QueryArg>)
    requires HasValues(args)
    ensures |popped| == |args|
    ensures forall i :: 0 <= i < |args| ==> popped[i] == PopLast(args[i])
  {
    seq(|args|, i requires 0 <= i < |args| => PopLast(args[i]))
  }

  function ArgKey(arg: QueryArg): string {
    ReplaceDunder(arg.name)
  }

  /** The filter the loop of `extract_query_args` has built after visiting
      `args` in order: each translated key maps to the parse of that
      argument's last value, a later key overwriting an earlier one. */
  function Extracted(args: seq<QueryArg>): map<string, FilterValue>
    requires HasValues(args)
    decreases |args|
  {
    if args == [] then map[]
    else
      var last := args[|args| - 1];
      Extracted(args[..|args| - 1])[ArgKey(last) := ParseValue(LastValue(last))]
  }

  /** One more step of the loop: the filter for a longer prefix is the
      filter for the shorter one with the next argument's entry stored. */
  lemma ExtractedStep(args: seq<QueryArg>, i: nat)
    requires HasValues(args) && i < |args|
    ensures HasValues(args[..i]) && HasValues(args[..i + 1])
    ensures Extracted(args[..i + 1])
            == Extracted(args[..i])[ArgKey(args[i]) := ParseValue(LastValue(args[i]))]
  {
    assert args[..i + 1][..i] == args[..i];
  }

  /** One more step of the loop: popping the next argument's last value. */
  lemma PopAllStep(args: seq<QueryArg>, i: nat)
    requires HasValues(args) && i < |args|
    ensures HasValues(args[..i]) && HasValues(args[..i + 1])
    ensures PopAll(args[..i + 1]) + args[i + 1..] == (PopAll(args[..i]) + args[i..])[i := PopLast(args[i])]
  {
  }

  /** Some argument's key translates to `k`. */
  predicate KeyOccurs(args: seq<QueryArg>, k: string) {
    exists i :: 0 <= i < |args| && ArgKey(args[i]) == k
  }

  /** A key occurs in a non-empty request exactly when it occurs before the
      last argument or is the last argument's key. */
  lemma KeyOccursSnoc(args: seq<QueryArg>)
    requires |args| > 0
    ensures forall k :: KeyOccurs(args, k)
                        <==> KeyOccurs(args[..|args| - 1], k) || ArgKey(args[|args| - 1]) == k
  {
    var n := |args| - 1;
    forall k ensures KeyOccurs(args, k) ==> KeyOccurs(args[..n], k) || ArgKey(args[n]) == k {
      if KeyOccurs(args, k) {
        var i :| 0 <= i < |args| && ArgKey(args[i]) == k;
        if i < n {
          assert args[..n][i] == args[i];
        }
      }
    }
    forall k ensures KeyOccurs(args[..n], k) ==> KeyOccurs(args, k) {
      if KeyOccurs(args[..n], k) {
        var i :| 0 <= i < n && ArgKey(args[..n][i]) == k;
        assert args[i] == args[..n][i];
      }
    }
  }

  /** The keys of the filter are exactly the translated request keys. */
  lemma {:induction false} ExtractedKeys(args: seq<QueryArg>)
    requires HasValues(args)
    ensures forall k :: k in Extracted(args) <==> KeyOccurs(args, k)
    decreases |args|
  {
    if args != [] {
      var n := |args| - 1;
      ExtractedKeys(args[..n]);
      KeyOccursSnoc(args);
      assert Extracted(args) == Extracted(args[..n])[ArgKey(args[n]) := ParseValue(LastValue(args[n]))];
    }
  }

  /** The entry for a key is built from the last value of the LAST argument
      whose key translates to it: earlier values of that argument, and
      earlier arguments that collide with it, are not used. */
  lemma {:induction false} ExtractedAt(args: seq<QueryArg>, i: nat)
    requires HasValues(args)
    requires i < |args|
    requires forall j :: i < j < |args| ==> ArgKey(args[j]) != ArgKey(args[i])
    ensures ArgKey(args[i]) in Extracted(args)
    ensures Extracted(args)[ArgKey(args[i])] == ParseValue(LastValue(args[i]))
    decreases |args|
  {
    var n := |args| - 1;
    if i < n {
      var init := args[..n];
      assert init[i] == args[i];
      forall j | i < j < |init| ensures ArgKey(init[j]) != ArgKey(init[i]) {
        assert init[j] == args[j];
      }
      ExtractedAt(init, i);
    }
  }

  /** No key of the filter contains `__`. */
  lemma ExtractedKeysHaveNoDunder(args: seq<QueryArg>)
    requires HasValues(args)
    ensures forall k :: k in Extracted(args) ==> !HasDunder(k)
  {
    ExtractedKeys(args);
    forall k | k in Extracted(args) ensures !HasDunder(k) {
      assert KeyOccurs(args, k);
      var i :| 0 <= i < |args| && ArgKey(args[i]) == k;
      ReplaceDunderLeavesNoDunder(args[i].name);
    }
  }

  /** The filter ignores everything but the last value of each argument:
      two requests with the same keys and the same last values give the
      same filter. */
  lemma {:induction false} ExtractedUsesOnlyLastValues(a: seq<QueryArg>, b: seq<QueryArg>)
    requires HasValues(a) && HasValues(b) && |a| == |b|
    requires forall i :: 0 <= i < |a| ==> a[i].name == b[i].name && LastValue(a[i]) == LastValue(b[i])
    ensures Extracted(a) == Extracted(b)
    decreases |a|
  {
    if a != [] {
      var n := |a| - 1;
      ExtractedUsesOnlyLastValues(a[..n], b[..n]);
    }
  }

  /** A request with no query arguments gives an empty filter. */
  lemma ExtractedEmpty()
    ensures Extracted([]) == map[]
  {
  }

  /** The filter of a three-argument request, written out. */
  lemma ExtractedThree(a: QueryArg, b: QueryArg, c: QueryArg)
    requires |a.values| > 0 && |b.values| > 0 && |c.values| > 0
    ensures HasValues([a, b, c])
    ensures Extracted([a, b, c])
            == map[ArgKey(a) := ParseValue(LastValue(a))][ArgKey(b) := ParseValue(LastValue(b))]
                  [ArgKey(c) := ParseValue(LastValue(c))]
  {
    var args := [a, b, c];
    assert Extracted(args[..0]) == map[] by {
      assert args[..0] == [];
    }
    ExtractedStep(args, 0);
    ExtractedStep(args, 1);
    ExtractedStep(args, 2);
    assert args[..3] == args;
  }

  /** `?status=1,2,3&user__id=5&tag=a,b` gives
      `{status: [1, 2, 3], "user.id": 5, tag: ["a", "b"]}`. */
  lemma ExampleRequestFilter()
    ensures var args := [QueryArg("status", ["1,2,3"]), QueryArg("user__id", ["5"]), QueryArg("tag", ["a,b"])];
      HasValues(args) &&
      Extracted(args) == map["status" := IntList([1, 2, 3]), "user.id" := Int(5), "tag" := StrList(["a", "b"])]
  {
    var a, b, c := QueryArg("status", ["1,2,3"]), QueryArg("user__id", ["5"]), QueryArg("tag", ["a,b"]);
    assert ArgKey(a) == "status" by {
      ReplaceDunderKeepsUnderscoreFreeKey("status");
    }
    assert ArgKey(c) == "tag" by {
      ReplaceDunderKeepsUnderscoreFreeKey("tag");
    }
    assert ArgKey(b) == "user.id" by {
      ExampleNestedKey();
    }
    assert ParseValue(LastValue(a)) == IntList([1, 2, 3]) by {
      ExampleIntList();
    }
    assert ParseValue(LastValue(b)) == Int(5) by {
      ExampleInt();
    }
    assert ParseValue(LastValue(c)) == StrList(["a", "b"]) by {
      ExampleStrList();
    }
    ExtractedThree(a, b, c);
  }
}

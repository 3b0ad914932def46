/** String operations shared by the backend and the browser scripts:
    Python's str.join, JavaScript's String.prototype.split with a
    one-character separator, and String.prototype.trim. */
module Text {

  /** Python's `sep.join(parts)`. */
  function Join(parts: seq<string>, sep: string): (r: string)
    ensures parts == [] ==> r == ""
    ensures |parts| == 1 ==> r == parts[0]
  {
    if |parts| == 0 then ""
    else if |parts| == 1 then parts[0]
    else parts[0] + sep + Join(parts[1..], sep)
  }

  /** JavaScript's `s.split(c)` for a one-character separator: the maximal
      separator-free segments, in order; the empty string splits into one
      empty segment. */
  function Split(s: string, c: char): (r: seq<string>)
    ensures |r| >= 1
    ensures forall i :: 0 <= i < |r| ==> c !in r[i]
    decreases |s|
  {
    if |s| == 0 then [""]
    else
      var rest := Split(s[1..], c);
      if s[0] == c then [""] + rest
      else [[s[0]] + rest[0]] + rest[1..]
  }

  /** The characters JavaScript's `trim` removes: WhiteSpace and
      LineTerminator of ECMA-262 (the Unicode Zs category, tab, vertical
      tab, form feed, BOM, line feed, carriage return, LS and PS). */
  predicate IsJsWhitespace(ch: char)
  {
    ch in {'\t', '\n', '\U{B}', '\U{C}', '\r', ' ', '\U{A0}', '\U{1680}',
           '\U{2000}', '\U{2001}', '\U{2002}', '\U{2003}', '\U{2004}', '\U{2005}',
           '\U{2006}', '\U{2007}', '\U{2008}', '\U{2009}', '\U{200A}',
           '\U{2028}', '\U{2029}', '\U{202F}', '\U{205F}', '\U{3000}', '\U{FEFF}'}
  }

  /** No whitespace at either end: what `trim` leaves alone. */
  predicate IsTrimmed(s: string)
  {
    s == "" || (!IsJsWhitespace(s[0]) && !IsJsWhitespace(s[|s| - 1]))
  }

  /** Drops the leading whitespace: the result is a suffix of `s`, everything
      dropped is whitespace, and the result does not start with whitespace. */
  function TrimStart(s: string): (r: string)
    ensures |r| <= |s| && r == s[|s| - |r|..]
    ensures r == "" || !IsJsWhitespace(r[0])
  {
    if |s| > 0 && IsJsWhitespace(s[0]) then TrimStart(s[1..]) else s
  }

  /** Everything TrimStart drops is whitespace. */
  lemma {:induction false} TrimStartDropsWhitespace(s: string)
    ensures forall i :: 0 <= i < |s| - |TrimStart(s)| ==> IsJsWhitespace(s[i])
  {
    if |s| > 0 && IsJsWhitespace(s[0]) {
      TrimStartDropsWhitespace(s[1..]);
      assert forall i :: 1 <= i < |s| ==> s[i] == s[1..][i - 1];
    }
  }

  /** Drops the trailing whitespace: the result is a prefix of `s`, everything
      dropped is whitespace, and the result does not end with whitespace. */
  function TrimEnd(s: string): (r: string)
    ensures |r| <= |s| && r == s[..|r|]
    ensures r == "" || !IsJsWhitespace(r[|r| - 1])
  {
    if |s| > 0 && IsJsWhitespace(s[|s| - 1]) then TrimEnd(s[..|s| - 1]) else s
  }

  /** Everything TrimEnd drops is whitespace. */
  lemma {:induction false} TrimEndDropsWhitespace(s: string)
    ensures forall i :: |TrimEnd(s)| <= i < |s| ==> IsJsWhitespace(s[i])
  {
    if |s| > 0 && IsJsWhitespace(s[|s| - 1]) {
      TrimEndDropsWhitespace(s[..|s| - 1]);
    }
  }

  /** JavaScript's `s.trim()`. */
  function Trim(s: string): (r: string)
    ensures IsTrimmed(r)
    ensures |r| <= |s|
  {
    TrimEnd(TrimStart(s))
  }

  /** `trim` leaves a trimmed string as it is. */
  lemma TrimTrimmed(s: string)
    requires IsTrimmed(s)
    ensures Trim(s) == s
  {
    assert TrimStart(s) == s;
    if s != "" {
      assert TrimEnd(s) == s;
    }
  }

  /** A leading space makes no difference to `trim`. */
  lemma TrimLeadingSpace(s: string)
    ensures Trim(" " + s) == Trim(s)
  {
    assert (" " + s)[1..] == s;
  }

  /** A trimmed string keeps no whitespace at its ends: `trim` is idempotent. */
  lemma TrimIdempotent(s: string)
    ensures Trim(Trim(s)) == Trim(s)
  {
    TrimTrimmed(Trim(s));
  }

  /** Splitting `a + t` where `a` holds no separator glues `a` to the first
      segment of `t`. */
  lemma {:induction false} SplitPrefix(a: string, t: string, c: char)
    requires c !in a
    ensures Split(a + t, c) == [a + Split(t, c)[0]] + Split(t, c)[1..]
  {
    if a != [] {
      assert (a + t)[0] == a[0];
      assert (a + t)[1..] == a[1..] + t;
      SplitPrefix(a[1..], t, c);
      assert [a[0]] + (a[1..] + Split(t, c)[0]) == a + Split(t, c)[0];
    } else {
      assert a + t == t;
      assert a + Split(t, c)[0] == Split(t, c)[0];
      assert Split(t, c) == [Split(t, c)[0]] + Split(t, c)[1..];
    }
  }

  /** A separator-free string followed by the separator starts a new segment. */
  lemma SplitAtSeparator(a: string, t: string, c: char)
    requires c !in a
    ensures Split(a + [c] + t, c) == [a] + Split(t, c)
  {
    assert a + [c] + t == a + ([c] + t);
    SplitPrefix(a, [c] + t, c);
    assert ([c] + t)[0] == c;
    assert ([c] + t)[1..] == t;
    assert Split([c] + t, c) == [""] + Split(t, c);
    assert a + "" == a;
  }

  /** Joining the segments back with the separator gives the string again. */
  lemma {:induction false} JoinSplit(s: string, c: char)
    ensures Join(Split(s, c), [c]) == s
  {
    if |s| > 0 {
      JoinSplit(s[1..], c);
      var rest := Split(s[1..], c);
      if s[0] == c {
        assert Join([""] + rest, [c]) == "" + [c] + Join(rest, [c]);
      } else if |rest| == 1 {
        assert Split(s, c) == [[s[0]] + rest[0]];
      } else {
        assert Join(rest, [c]) == rest[0] + [c] + Join(rest[1..], [c]);
        assert Split(s, c)[1..] == rest[1..];
        assert Join(Split(s, c), [c]) == [s[0]] + rest[0] + [c] + Join(rest[1..], [c]);
      }
      assert s == [s[0]] + s[1..];
    }
  }

  /** Splitting a join of separator-free parts gives the parts back. */
  lemma {:induction false} SplitJoin(parts: seq<string>, c: char)
    requires |parts| >= 1
    requires forall i :: 0 <= i < |parts| ==> c !in parts[i]
    ensures Split(Join(parts, [c]), c) == parts
  {
    if |parts| == 1 {
      SplitPrefix(parts[0], "", c);
      assert parts[0] + "" == parts[0];
    } else {
      SplitJoin(parts[1..], c);
      SplitAtSeparator(parts[0], Join(parts[1..], [c]), c);
      assert parts == [parts[0]] + parts[1..];
    }
  }

  /** `parts.map(p => p.trim())`. */
  function TrimAll(parts: seq<string>): (r: seq<string>)
    ensures |r| == |parts|
    ensures forall i :: 0 <= i < |r| ==> r[i] == Trim(parts[i])
  {
    if parts == [] then [] else [Trim(parts[0])] + TrimAll(parts[1..])
  }

  /** Neither a comma nor surrounding whitespace: a name that survives being
      stored in a comma-separated list. */
  predicate IsListSafe(name: string)
  {
    ',' !in name && IsTrimmed(name)
  }

  /** The segments of a `", "`-join of two or more names: the first name, then
      the segments of the rest with a space glued to the front of the first. */
  lemma SplitJoinShape(names: seq<string>)
    requires |names| >= 2
    requires ',' !in names[0]
    ensures var segs := Split(Join(names[1..], ", "), ',');
            Split(Join(names, ", "), ',') == [names[0]] + ([" " + segs[0]] + segs[1..])
  {
    var tail := Join(names[1..], ", ");
    assert Join(names, ", ") == names[0] + [','] + (" " + tail);
    SplitAtSeparator(names[0], " " + tail, ',');
    SplitPrefix(" ", tail, ',');
  }

  /** Splitting a `", "`-join on `,` and trimming each segment gives back the
      joined names, provided none holds a comma or surrounding whitespace. */
  lemma {:induction false} SplitTrimJoin(names: seq<string>)
    requires |names| >= 1
    requires forall i :: 0 <= i < |names| ==> IsListSafe(names[i])
    ensures TrimAll(Split(Join(names, ", "), ',')) == names
  {
    assert IsListSafe(names[0]);
    if |names| == 1 {
      SingleRoundTrip(names[0]);
      assert names == [names[0]];
    } else {
      var rest := names[1..];
      assert forall i :: 0 <= i < |rest| ==> IsListSafe(rest[i]) by {
        forall i | 0 <= i < |rest|
          ensures IsListSafe(rest[i])
        {
          assert rest[i] == names[i + 1];
        }
      }
      SplitTrimJoin(rest);
      TrimAllOfJoin(names);
      HeadTail(names);
    }
  }

  lemma SingleRoundTrip(name: string)
    requires IsListSafe(name)
    ensures TrimAll(Split(Join([name], ", "), ',')) == [name]
  {
    TrimTrimmed(name);
    SplitPrefix(name, "", ',');
    assert name + "" == name;
    TrimAllCons(name, []);
  }

  /** One step of the round trip: the first name comes back as it is and
      the rest come back as the round trip of the remaining names. */
  lemma TrimAllOfJoin(names: seq<string>)
    requires |names| >= 2 && IsListSafe(names[0])
    ensures TrimAll(Split(Join(names, ", "), ',')) ==
            [names[0]] + TrimAll(Split(Join(names[1..], ", "), ','))
  {
    var segs := Split(Join(names[1..], ", "), ',');
    var tailSegs := [" " + segs[0]] + segs[1..];
    SplitJoinShape(names);
    TrimTrimmed(names[0]);
    TrimAllShifted(segs);
    TrimAllCons(names[0], tailSegs);
  }

  /** A space glued to the front of the first segment makes no difference
      once every segment is trimmed. */
  lemma TrimAllShifted(segs: seq<string>)
    requires |segs| >= 1
    ensures TrimAll([" " + segs[0]] + segs[1..]) == TrimAll(segs)
  {
    TrimLeadingSpace(segs[0]);
    TrimAllSameHead(" " + segs[0], segs[0], segs[1..]);
    HeadTail(segs);
  }

  lemma TrimAllSameHead(a: string, b: string, rest: seq<string>)
    requires Trim(a) == Trim(b)
    ensures TrimAll([a] + rest) == TrimAll([b] + rest)
  {
    TrimAllCons(a, rest);
    TrimAllCons(b, rest);
  }

  lemma TrimAllCons(a: string, rest: seq<string>)
    ensures TrimAll([a] + rest) == [Trim(a)] + TrimAll(rest)
  {
    assert ([a] + rest)[1..] == rest;
  }

  /** The first segment of a `", "`-join is the first name itself, with no
      trimming needed. */
  lemma FirstSegmentOfJoin(names: seq<string>)
    requires |names| >= 1
    requires ',' !in names[0]
    ensures Split(Join(names, ", "), ',')[0] == names[0]
  {
    if |names| == 1 {
      SplitPrefix(names[0], "", ',');
      assert names[0] + "" == names[0];
    } else {
      assert Join(names, ", ") == names[0] + [','] + (" " + Join(names[1..], ", "));
      SplitAtSeparator(names[0], " " + Join(names[1..], ", "), ',');
    }
  }

  /** The number of segments `split` yields is one more than the number of
      separators in the string. */
  function Occurrences(s: string, c: char): (n: nat)
    ensures n <= |s|
    ensures n == 0 <==> c !in s
  {
    if s == "" then 0 else (if s[0] == c then 1 else 0) + Occurrences(s[1..], c)
  }

  lemma {:induction false} SplitCount(s: string, c: char)
    ensures |Split(s, c)| == Occurrences(s, c) + 1
  {
    if s != "" {
      SplitCount(s[1..], c);
    }
  }

  /** Splitting at one separator splits the two sides independently. */
  lemma {:induction false} SplitAppend(s: string, t: string, c: char)
    ensures Split(s + [c] + t, c) == Split(s, c) + Split(t, c)
  {
    if s == "" {
      assert s + [c] + t == [c] + t;
      assert ([c] + t)[1..] == t;
    } else {
      var u := s + [c] + t;
      assert u[0] == s[0];
      assert u[1..] == s[1..] + [c] + t;
      SplitAppend(s[1..], t, c);
      var left, right := Split(s[1..], c), Split(t, c);
      assert Split(u[1..], c) == left + right;
      if s[0] != c {
        assert (left + right)[0] == left[0];
        assert (left + right)[1..] == left[1..] + right;
        assert Split(u, c) == [[s[0]] + left[0]] + (left[1..] + right);
        assert Split(s, c) == [[s[0]] + left[0]] + left[1..];
        SeqAssoc([[s[0]] + left[0]], left[1..], right);
      } else {
        assert Split(u, c) == [""] + (left + right);
        assert Split(s, c) == [""] + left;
        SeqAssoc([""], left, right);
      }
    }
  }

  lemma SeqAssoc<T>(a: seq<T>, b: seq<T>, d: seq<T>)
    ensures a + (b + d) == (a + b) + d
  {
  }

  lemma HeadTail<T>(s: seq<T>)
    requires |s| >= 1
    ensures s == [s[0]] + s[1..]
  {
  }

  /** The last segment of `s + [c] + t`, for a separator-free `t`, is `t`. */
  lemma LastSegment(s: string, t: string, c: char)
    requires c !in t
    ensures var segs := Split(s + [c] + t, c); segs[|segs| - 1] == t
  {
    SplitAppend(s, t, c);
    SplitPrefix(t, "", c);
    assert t + "" == t;
  }
}

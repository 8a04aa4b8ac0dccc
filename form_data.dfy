/**
 * formDataToJSON (assets/configure.js): every form entry's name is split into
 * a path of keys, and the value is stored at that path in a nested object,
 * creating the intermediate objects on the way. Objects are modelled as maps
 * from keys to JSON-like values.
 */
module FormData {
  import opened Wrappers
  import opened JsValues

  /** The characters the key pattern /\[|\]\.|\.|\]/ splits at. */
  predicate IsDelimiter(c: char) {
    c == '[' || c == ']' || c == '.'
  }

  /** A key piece without any delimiter. */
  predicate Plain(w: string) {
    forall i :: 0 <= i < |w| ==> !IsDelimiter(w[i])
  }

  /**
   * key.split(/\[|\]\.|\.|\]/) applied to s, where cur holds the characters
   * read since the last delimiter. The alternatives are tried in the order of
   * the pattern, so "]." is one delimiter and a lone "]" another.
   */
  function SplitFrom(s: string, cur: string): (r: seq<string>)
    ensures |r| >= 1
    decreases |s|
  {
    if s == [] then [cur]
    else if s[0] == '[' then [cur] + SplitFrom(s[1..], "")
    else if s[0] == ']' && |s| >= 2 && s[1] == '.' then [cur] + SplitFrom(s[2..], "")
    else if s[0] == '.' then [cur] + SplitFrom(s[1..], "")
    else if s[0] == ']' then [cur] + SplitFrom(s[1..], "")
    else SplitFrom(s[1..], cur + [s[0]])
  }

  /** Starting from a plain piece, every piece of the split is plain. */
  lemma {:induction false} SplitFromPlain(s: string, cur: string)
    requires Plain(cur)
    ensures forall i :: 0 <= i < |SplitFrom(s, cur)| ==> Plain(SplitFrom(s, cur)[i])
    decreases |s|
  {
    if s == [] {
    } else if s[0] == '[' || s[0] == '.' || s[0] == ']' {
      var rest := if s[0] == ']' && |s| >= 2 && s[1] == '.' then s[2..] else s[1..];
      SplitFromPlain(rest, "");
      assert SplitFrom(s, cur) == [cur] + SplitFrom(rest, "");
    } else {
      assert Plain(cur + [s[0]]) by {
        forall i | 0 <= i < |cur| + 1
          ensures !IsDelimiter((cur + [s[0]])[i])
        {
          if i < |cur| {
            assert (cur + [s[0]])[i] == cur[i];
          }
        }
      }
      SplitFromPlain(s[1..], cur + [s[0]]);
    }
  }

  /** .filter(Boolean) on strings: the non-empty pieces, in order. */
  function NonEmpty(xs: seq<string>): (r: seq<string>)
    ensures |r| <= |xs|
  {
    if xs == [] then []
    else (if xs[0] == [] then [] else [xs[0]]) + NonEmpty(xs[1..])
  }

  /** The filter keeps only non-empty pieces. */
  lemma {:induction false} NonEmptyDropsEmpty(xs: seq<string>)
    ensures forall i :: 0 <= i < |NonEmpty(xs)| ==> NonEmpty(xs)[i] != []
  {
    if xs != [] {
      NonEmptyDropsEmpty(xs[1..]);
      var head := if xs[0] == [] then [] else [xs[0]];
      assert NonEmpty(xs) == head + NonEmpty(xs[1..]);
    }
  }

  /** The filter of plain pieces keeps plain pieces. */
  lemma {:induction false} NonEmptyKeepsPlain(xs: seq<string>)
    requires forall j :: 0 <= j < |xs| ==> Plain(xs[j])
    ensures forall i :: 0 <= i < |NonEmpty(xs)| ==> Plain(NonEmpty(xs)[i])
  {
    if xs != [] {
      assert forall j :: 0 <= j < |xs[1..]| ==> Plain(xs[1..][j]) by {
        forall j | 0 <= j < |xs[1..]| ensures Plain(xs[1..][j]) {
          assert xs[1..][j] == xs[j + 1];
        }
      }
      NonEmptyKeepsPlain(xs[1..]);
      var head := if xs[0] == [] then [] else [xs[0]];
      assert NonEmpty(xs) == head + NonEmpty(xs[1..]);
    }
  }

  /** key.split(/\[|\]\.|\.|\]/).filter(Boolean): the path of keys of a form entry's name. */
  function SplitKey(key: string): (keys: seq<string>)
    ensures forall i :: 0 <= i < |keys| ==> keys[i] != [] && Plain(keys[i])
  {
    assert Plain("");
    SplitFromPlain(key, "");
    NonEmptyDropsEmpty(SplitFrom(key, ""));
    NonEmptyKeepsPlain(SplitFrom(key, ""));
    NonEmpty(SplitFrom(key, ""))
  }

  /** A reference splitter that cuts at every delimiter character on its own. */
  function SplitEach(s: string, cur: string): seq<string>
    decreases |s|
  {
    if s == [] then [cur]
    else if IsDelimiter(s[0]) then [cur] + SplitEach(s[1..], "")
    else SplitEach(s[1..], cur + [s[0]])
  }

  lemma {:induction false} NonEmptyAppend(xs: seq<string>, ys: seq<string>)
    ensures NonEmpty(xs + ys) == NonEmpty(xs) + NonEmpty(ys)
  {
    if xs == [] {
      assert xs + ys == ys;
    } else {
      var head := if xs[0] == [] then [] else [xs[0]];
      assert (xs + ys)[0] == xs[0];
      assert (xs + ys)[1..] == xs[1..] + ys;
      NonEmptyAppend(xs[1..], ys);
      assert NonEmpty(xs + ys) == head + (NonEmpty(xs[1..]) + NonEmpty(ys));
      assert NonEmpty(xs) == head + NonEmpty(xs[1..]);
    }
  }

  /**
   * Treating "]." as one delimiter only saves an empty piece, which the filter
   * drops: the key path is the non-empty pieces between delimiter characters.
   */
  lemma {:induction false} SplitKeyCutsAtEachDelimiter(s: string, cur: string)
    ensures NonEmpty(SplitFrom(s, cur)) == NonEmpty(SplitEach(s, cur))
    decreases |s|
  {
    if s == [] {
    } else if s[0] == ']' && |s| >= 2 && s[1] == '.' {
      SplitKeyCutsAtEachDelimiter(s[2..], "");
      CloseDotSplit(s, cur);
      CloseDotEach(s, cur);
    } else if IsDelimiter(s[0]) {
      SplitKeyCutsAtEachDelimiter(s[1..], "");
      NonEmptyAppend([cur], SplitFrom(s[1..], ""));
      NonEmptyAppend([cur], SplitEach(s[1..], ""));
    } else {
      SplitKeyCutsAtEachDelimiter(s[1..], cur + [s[0]]);
    }
  }

  /** At "]." the pattern ends the current piece and skips both characters. */
  lemma CloseDotSplit(s: string, cur: string)
    requires |s| >= 2 && s[0] == ']' && s[1] == '.'
    ensures NonEmpty(SplitFrom(s, cur)) == NonEmpty([cur]) + NonEmpty(SplitFrom(s[2..], ""))
  {
    assert SplitFrom(s, cur) == [cur] + SplitFrom(s[2..], "");
    NonEmptyAppend([cur], SplitFrom(s[2..], ""));
  }

  /** At "]." the reference splitter ends the current piece and then an empty one, which the filter drops. */
  lemma CloseDotEach(s: string, cur: string)
    requires |s| >= 2 && s[0] == ']' && s[1] == '.'
    ensures NonEmpty(SplitEach(s, cur)) == NonEmpty([cur]) + NonEmpty(SplitEach(s[2..], ""))
  {
    var t := s[1..];
    assert t[0] == '.' && t[1..] == s[2..];
    var rest := SplitEach(s[2..], "");
    assert SplitEach(t, "") == [""] + rest;
    assert SplitEach(s, cur) == [cur] + SplitEach(t, "");
    NonEmptyAppend([""], rest);
    assert NonEmpty([""]) == [];
    NonEmptyAppend([cur], [""] + rest);
  }

  /** Reading a plain word only extends the current piece. */
  lemma {:induction false} SplitPlainPrefix(w: string, rest: string, cur: string)
    requires Plain(w)
    ensures SplitFrom(w + rest, cur) == SplitFrom(rest, cur + w)
    decreases |w|
  {
    if w == [] {
      assert w + rest == rest && cur + w == cur;
    } else {
      assert (w + rest)[0] == w[0] && !IsDelimiter(w[0]);
      assert (w + rest)[1..] == w[1..] + rest;
      assert SplitFrom(w + rest, cur) == SplitFrom(w[1..] + rest, cur + [w[0]]);
      assert Plain(w[1..]) by {
        forall i | 0 <= i < |w[1..]| ensures !IsDelimiter(w[1..][i]) {
          assert w[1..][i] == w[i + 1];
        }
      }
      SplitPlainPrefix(w[1..], rest, cur + [w[0]]);
      assert cur + [w[0]] + w[1..] == cur + w;
    }
  }

  /** "[q1][q2]...[qn]": the bracketed tail of a form field name. */
  function Brackets(qs: seq<string>): string {
    if qs == [] then [] else "[" + qs[0] + "]" + Brackets(qs[1..])
  }

  /** The name of a nested form field: p0[p1][p2]...[pn]. */
  function BracketKey(p0: string, qs: seq<string>): string {
    p0 + Brackets(qs)
  }

  /** All pieces of a path are non-empty and delimiter-free. */
  predicate PlainPieces(ps: seq<string>) {
    forall i :: 0 <= i < |ps| ==> ps[i] != [] && Plain(ps[i])
  }

  /** One bracketed piece "[q]" followed by another bracket or the end ends two pieces: the current one and q. */
  lemma SplitBracketStep(q: string, tail: string, cur: string)
    requires Plain(q) && (tail == [] || tail[0] == '[')
    ensures SplitFrom("[" + q + "]" + tail, cur) == [cur] + ([q] + SplitFrom(tail, ""))
  {
    var s := "[" + q + "]" + tail;
    assert s[0] == '[' && s[1..] == q + ("]" + tail);
    SplitPlainPrefix(q, "]" + tail, "");
    assert [] + q == q;
    assert ("]" + tail)[0] == ']' && ("]" + tail)[1..] == tail;
  }

  lemma {:induction false} SplitBrackets(qs: seq<string>, cur: string)
    requires PlainPieces(qs)
    ensures NonEmpty(SplitFrom(Brackets(qs), cur)) == NonEmpty([cur]) + qs
    decreases |qs|
  {
    if qs != [] {
      var q := qs[0];
      var tail := Brackets(qs[1..]);
      assert Brackets(qs) == "[" + q + "]" + tail;
      assert tail == [] || tail[0] == '[';
      SplitBracketStep(q, tail, cur);
      assert PlainPieces(qs[1..]) by {
        forall i | 0 <= i < |qs[1..]| ensures qs[1..][i] != [] && Plain(qs[1..][i]) {
          assert qs[1..][i] == qs[i + 1];
        }
      }
      var rest := SplitFrom(tail, "");
      SplitBrackets(qs[1..], "");
      assert NonEmpty([""]) == [];
      assert NonEmpty(rest) == qs[1..];
      NonEmptyAppend([cur], [q] + rest);
      NonEmptyAppend([q], rest);
      assert NonEmpty([q]) == [q];
      assert NonEmpty([q] + rest) == qs;
    }
  }

  /** Splitting the name p0[p1]...[pn] of plain, non-empty pieces gives back the pieces. */
  lemma BracketKeyRoundTrip(p0: string, qs: seq<string>)
    requires p0 != [] && Plain(p0) && PlainPieces(qs)
    ensures SplitKey(BracketKey(p0, qs)) == [p0] + qs
  {
    SplitPlainPrefix(p0, Brackets(qs), "");
    assert [] + p0 == p0;
    SplitBrackets(qs, p0);
  }

  /** The pin offset field of the configuration form splits into its three keys. */
  lemma PinOffsetKey()
    ensures SplitKey("pin[offsets][--pin-offset-x]") == ["pin", "offsets", "--pin-offset-x"]
  {
    PinOffsetName();
    PinOffsetPieces();
    BracketKeyRoundTrip("pin", ["offsets", "--pin-offset-x"]);
  }

  lemma PinOffsetName()
    ensures "pin[offsets][--pin-offset-x]" == BracketKey("pin", ["offsets", "--pin-offset-x"])
  {
    var qs := ["offsets", "--pin-offset-x"];
    assert qs[1..] == ["--pin-offset-x"] && qs[1..][1..] == [];
  }

  lemma PinOffsetPieces()
    ensures Plain("pin") && PlainPieces(["offsets", "--pin-offset-x"])
  {
  }

  /** The error a strict-mode script gets when it sets a property on a string or number. */
  const TypeErrorMessage: string := "TypeError: Cannot create property on a primitive value"

  /** The value at a non-empty path, following nested objects. */
  function Lookup(m: map<string, Value>, path: seq<string>): Option<Value>
    requires path != []
    decreases |path|
  {
    if path[0] !in m then None
    else if |path| == 1 then Some(m[path[0]])
    else match m[path[0]]
      case Obj(f) => Lookup(f, path[1..])
      case _ => None
  }

  /**
   * The walk along path meets a truthy string or number before the last key,
   * on which the next property assignment fails.
   */
  predicate Blocked(m: map<string, Value>, path: seq<string>)
    decreases |path|
  {
    && |path| >= 2 && path[0] in m && Truthy(m[path[0]])
    && (m[path[0]].Obj? ==> Blocked(m[path[0]].fields, path[1..]))
  }

  /**
   * The inner loop of formDataToJSON on object m: the last key receives the
   * value; every earlier key keeps a truthy existing value (current[k] || {})
   * or gets a new empty object, and the walk continues inside it.
   */
  function Insert(m: map<string, Value>, path: seq<string>, value: Value): (r: Result<map<string, Value>>)
    requires path != []
    ensures r.Failure? <==> Blocked(m, path)
    ensures r.Failure? ==> r.error == TypeErrorMessage
    ensures r.Success? ==> Lookup(r.value, path) == Some(value)
    ensures r.Success? ==> r.value.Keys == m.Keys + {path[0]}
    decreases |path|
  {
    var k := path[0];
    if |path| == 1 then Success(m[k := value])
    else
      var child := if k in m && Truthy(m[k]) then m[k] else Obj(map[]);
      match child
      case Obj(f) =>
        (match Insert(f, path[1..], value)
         case Success(f') => Success(m[k := Obj(f')])
         case Failure(e) => Failure(e))
      case _ => Failure(TypeErrorMessage)
  }

  /**
   * Writing along path p leaves the value at any path q that parts from p at
   * some position i where it was.
   */
  lemma {:induction false} InsertKeepsOtherPaths(m: map<string, Value>, p: seq<string>, value: Value,
                                                 q: seq<string>, i: nat)
    requires p != [] && Insert(m, p, value).Success?
    requires i < |p| && i < |q| && p[i] != q[i]
    ensures Lookup(Insert(m, p, value).value, q) == Lookup(m, q)
    decreases i
  {
    var m' := Insert(m, p, value).value;
    if i > 0 {
      var k := p[0];
      assert q[0] == k || q[0] != k;
      if q[0] == k && |q| > 1 && |p| > 1 {
        var child := if k in m && Truthy(m[k]) then m[k] else Obj(map[]);
        var f' := Insert(child.fields, p[1..], value).value;
        assert m'[k] == Obj(f');
        InsertKeepsOtherPaths(child.fields, p[1..], value, q[1..], i - 1);
        assert Lookup(m', q) == Lookup(f', q[1..]);
        if k in m && m[k].Obj? {
          assert Lookup(m, q) == Lookup(m[k].fields, q[1..]);
        } else {
          EmptyLookup(q[1..]);
        }
      }
    }
  }

  /** Nothing is found in an empty object. */
  lemma EmptyLookup(q: seq<string>)
    requires q != []
    ensures Lookup(map[], q) == None
  {
  }

  /** One entry of the outer loop: its value goes to its key path; an empty path writes nothing. */
  function Step(m: map<string, Value>, entry: (string, Value)): Result<map<string, Value>> {
    var keys := SplitKey(entry.0);
    if keys == [] then Success(m) else Insert(m, keys, entry.1)
  }

  /** The object formDataToJSON builds from the entries, in order; the first failing entry ends it. */
  function Build(entries: seq<(string, Value)>): Result<map<string, Value>> {
    if entries == [] then Success(map[])
    else
      match Build(entries[..|entries| - 1])
      case Success(m) => Step(m, entries[|entries| - 1])
      case Failure(e) => Failure(e)
  }

  /** formDataToJSON(formData) over the entries of the form, in order. */
  method FormDataToJson(entries: seq<(string, Value)>) returns (r: Result<map<string, Value>>)
    ensures r == Build(entries)
  {
    var result: map<string, Value> := map[];
    for i := 0 to |entries|
      invariant Build(entries[..i]) == Success(result)
    {
      assert entries[..i + 1][..i] == entries[..i];
      var keys := SplitKey(entries[i].0);
      if keys != [] {
        var next := Insert(result, keys, entries[i].1);
        if next.Failure? {
          assert Build(entries[..i + 1]).Failure?;
          BuildFailureSticks(entries, i + 1);
          return Failure(next.error);
        }
        result := next.value;
      }
    }
    assert entries[..|entries|] == entries;
    return Success(result);
  }

  /** Once an entry fails, so does the whole form. */
  lemma {:induction false} BuildFailureSticks(entries: seq<(string, Value)>, i: nat)
    requires i <= |entries| && Build(entries[..i]).Failure?
    ensures Build(entries) == Build(entries[..i])
    decreases |entries| - i
  {
    if i < |entries| {
      assert entries[..i + 1][..i] == entries[..i];
      BuildFailureSticks(entries, i + 1);
    } else {
      assert entries[..i] == entries;
    }
  }

  /**
   * The last entry wins: after a later entry, its value is found at its key
   * path, whatever earlier entries wrote there.
   */
  lemma LastWriteWins(entries: seq<(string, Value)>, key: string, value: Value)
    requires Build(entries + [(key, value)]).Success? && SplitKey(key) != []
    ensures Lookup(Build(entries + [(key, value)]).value, SplitKey(key)) == Some(value)
  {
    assert (entries + [(key, value)])[..|entries|] == entries;
  }

  /**
   * Keys sharing a prefix merge: a later entry whose path parts from an earlier
   * value's path leaves that value where it was.
   */
  lemma LaterEntryKeepsOtherPaths(entries: seq<(string, Value)>, key: string, value: Value, q: seq<string>, i: nat)
    requires Build(entries + [(key, value)]).Success? && q != []
    requires i < |SplitKey(key)| && i < |q| && SplitKey(key)[i] != q[i]
    ensures Build(entries).Success?
    ensures Lookup(Build(entries + [(key, value)]).value, q) == Lookup(Build(entries).value, q)
  {
    assert (entries + [(key, value)])[..|entries|] == entries;
    InsertKeepsOtherPaths(Build(entries).value, SplitKey(key), value, q, i);
  }
}

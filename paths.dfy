/** Go's path/filepath Join and Clean on a Unix system: the purely lexical path arithmetic
    the deployer uses for a repository's workspace and a deployment's log file. */
module Paths {
  import Text

  /** No two dots in a row. */
  predicate NoDoubleDot(s: string)
  {
    forall k :: 0 <= k < |s| - 1 ==> !(s[k] == '.' && s[k + 1] == '.')
  }

  predicate Rooted(path: string)
  {
    |path| > 0 && path[0] == '/'
  }

  /** Elements as Clean keeps them: non-empty and free of separators. */
  predicate ProperElems(xs: seq<string>)
  {
    forall k :: 0 <= k < |xs| ==> xs[k] != "" && '/' !in xs[k]
  }

  predicate SeparatorFree(xs: seq<string>)
  {
    forall k :: 0 <= k < |xs| ==> '/' !in xs[k]
  }

  predicate AllNoDoubleDot(xs: seq<string>)
  {
    forall k :: 0 <= k < |xs| ==> NoDoubleDot(xs[k])
  }

  /** No element is a parent reference. */
  predicate NoParent(xs: seq<string>)
  {
    forall k :: 0 <= k < |xs| ==> xs[k] != ".."
  }

  /** An element Clean keeps as it is: not empty, not "." or "..", and free of separators. */
  predicate PlainElem(e: string)
  {
    e != "" && e != "." && e != ".." && '/' !in e
  }

  /** Clean's treatment of one element: empty and "." elements vanish; ".." removes the
      element before it, vanishes at the root of an absolute path, and is otherwise kept;
      any other element is kept. */
  function Step(kept: seq<string>, e: string, rooted: bool): seq<string>
  {
    if e == "" || e == "." then kept
    else if e == ".." then
      if |kept| > 0 && kept[|kept| - 1] != ".." then kept[..|kept| - 1]
      else if rooted then kept
      else kept + [".."]
    else kept + [e]
  }

  /** The elements left after processing `elems`, left to right, on top of `kept`. */
  function Resolve(kept: seq<string>, elems: seq<string>, rooted: bool): seq<string>
    decreases |elems|
  {
    if elems == [] then kept else Resolve(Step(kept, elems[0], rooted), elems[1..], rooted)
  }

  /** filepath.Clean: the shortest lexically equivalent path. Repeated separators, "."
      elements and ".." elements with something to cancel are gone, as is any trailing
      separator; the result is never empty, and is absolute exactly when the input is. */
  function Clean(path: string): (r: string)
    ensures r != ""
    ensures Rooted(r) <==> Rooted(path)
  {
    var kept := Resolve([], Text.Split(path, '/'), Rooted(path));
    Text.SplitShape(path, '/');
    ResolveShape([], Text.Split(path, '/'), Rooted(path));
    if Rooted(path) then "/" + Text.Join(kept, '/')
    else if kept == [] then "."
    else
      JoinHead(kept, '/');
      Text.Join(kept, '/')
  }

  /** filepath.Join: the elements from the first non-empty one on, joined with '/' and
      cleaned; all-empty elements give the empty string. */
  function JoinElems(elems: seq<string>): (r: string)
    ensures r == "" <==> forall k :: 0 <= k < |elems| ==> elems[k] == ""
  {
    if elems == [] then ""
    else if elems[0] == "" then JoinElems(elems[1..])
    else Clean(Text.Join(elems, '/'))
  }

  // ---------------------------------------------------------------------------
  // The shape of the kept elements

  /** Separator-free elements leave kept elements that are non-empty, separator-free, and
      ".." only where the input had a "..". */
  lemma {:induction false} ResolveShape(kept: seq<string>, elems: seq<string>, rooted: bool)
    requires ProperElems(kept) && SeparatorFree(elems)
    ensures ProperElems(Resolve(kept, elems, rooted))
    decreases |elems|
  {
    if elems != [] {
      ResolveShape(Step(kept, elems[0], rooted), elems[1..], rooted);
    }
  }

  /** A join whose first part is non-empty starts with that part's first character. */
  lemma JoinHead(parts: seq<string>, sep: char)
    requires parts != [] && parts[0] != ""
    ensures Text.Join(parts, sep) != [] && Text.Join(parts, sep)[0] == parts[0][0]
  {
  }

  // ---------------------------------------------------------------------------
  // No ".." survives where none was

  /** Joining two parts free of ".." with '/' introduces none. */
  lemma ConcatNoDoubleDot(a: string, b: string)
    requires NoDoubleDot(a) && NoDoubleDot(b)
    ensures NoDoubleDot(a + "/" + b)
  {
    var s := a + "/" + b;
    forall k | 0 <= k < |s| - 1 ensures !(s[k] == '.' && s[k + 1] == '.') {
      if k + 1 < |a| {
        assert s[k] == a[k] && s[k + 1] == a[k + 1];
      } else if k > |a| {
        assert s[k] == b[k - |a| - 1] && s[k + 1] == b[k - |a|];
      }
    }
  }

  lemma {:induction false} JoinNoDoubleDot(parts: seq<string>)
    requires AllNoDoubleDot(parts)
    ensures NoDoubleDot(Text.Join(parts, '/'))
  {
    if |parts| >= 2 {
      JoinNoDoubleDot(parts[1..]);
      ConcatNoDoubleDot(parts[0], Text.Join(parts[1..], '/'));
    }
  }

  /** Every piece of a split string free of ".." is free of ".." too. */
  lemma {:induction false} SplitNoDoubleDot(s: string, sep: char)
    requires NoDoubleDot(s)
    ensures AllNoDoubleDot(Text.Split(s, sep))
  {
    if s != [] {
      SplitNoDoubleDot(s[1..], sep);
      SplitHead(s[1..], sep);
      var rest := Text.Split(s[1..], sep);
      if s[0] != sep {
        var first := [s[0]] + rest[0];
        forall k | 0 <= k < |first| - 1 ensures !(first[k] == '.' && first[k + 1] == '.') {
          assert first[k] == s[k] && first[k + 1] == s[k + 1];
        }
      }
    }
  }

  /** The first piece of a split is a prefix of the string. */
  lemma {:induction false} SplitHead(s: string, sep: char)
    ensures Text.HasPrefix(s, Text.Split(s, sep)[0])
  {
    if s != [] {
      SplitHead(s[1..], sep);
    }
  }

  /** Elements free of ".." are kept or dropped, never cancelled, so none of the kept ones
      holds "..". */
  lemma {:induction false} ResolveNoDoubleDot(kept: seq<string>, elems: seq<string>, rooted: bool)
    requires AllNoDoubleDot(kept) && AllNoDoubleDot(elems)
    ensures AllNoDoubleDot(Resolve(kept, elems, rooted))
    decreases |elems|
  {
    if elems != [] {
      ParentHasDoubleDot();
      assert elems[0] != "..";
      ResolveNoDoubleDot(Step(kept, elems[0], rooted), elems[1..], rooted);
    }
  }

  lemma ParentHasDoubleDot()
    ensures !NoDoubleDot("..")
  {
    assert ".."[0] == '.' && ".."[1] == '.';
  }

  lemma NoDoubleDotNoParent(xs: seq<string>)
    requires AllNoDoubleDot(xs)
    ensures NoParent(xs)
  {
    ParentHasDoubleDot();
  }

  /** Cleaning a path free of ".." gives a path free of "..". */
  lemma CleanNoDoubleDot(path: string)
    requires NoDoubleDot(path)
    ensures NoDoubleDot(Clean(path))
  {
    var elems := Text.Split(path, '/');
    SplitNoDoubleDot(path, '/');
    ResolveNoDoubleDot([], elems, Rooted(path));
    var kept := Resolve([], elems, Rooted(path));
    JoinNoDoubleDot(kept);
    if Rooted(path) {
      ConcatNoDoubleDot("", Text.Join(kept, '/'));
      assert "" + "/" + Text.Join(kept, '/') == "/" + Text.Join(kept, '/');
    }
  }

  /** Joining elements free of ".." gives a path free of "..". */
  lemma {:induction false} JoinElemsNoDoubleDot(elems: seq<string>)
    requires AllNoDoubleDot(elems)
    ensures NoDoubleDot(JoinElems(elems))
  {
    if elems != [] {
      if elems[0] == "" {
        JoinElemsNoDoubleDot(elems[1..]);
      } else {
        JoinNoDoubleDot(elems);
        CleanNoDoubleDot(Text.Join(elems, '/'));
      }
    }
  }

  // ---------------------------------------------------------------------------
  // A clean absolute root stays a prefix

  /** Splitting at a separator splits the two sides independently. */
  lemma {:induction false} SplitConcat(a: string, b: string, sep: char)
    ensures Text.Split(a + [sep] + b, sep) == Text.Split(a, sep) + Text.Split(b, sep)
  {
    if a == [] {
      assert [] + [sep] + b == [sep] + b;
      assert ([sep] + b)[1..] == b;
    } else {
      var s := a + [sep] + b;
      assert s[0] == a[0] && s[1..] == a[1..] + [sep] + b;
      SplitConcat(a[1..], b, sep);
    }
  }

  /** Processing two lists is processing the second on top of the first's result. */
  lemma {:induction false} ResolveConcat(kept: seq<string>, x: seq<string>, y: seq<string>, rooted: bool)
    ensures Resolve(kept, x + y, rooted) == Resolve(Resolve(kept, x, rooted), y, rooted)
    decreases |x|
  {
    if x == [] {
      assert x + y == y;
    } else {
      assert (x + y)[0] == x[0] && (x + y)[1..] == x[1..] + y;
      ResolveConcat(Step(kept, x[0], rooted), x[1..], y, rooted);
    }
  }

  /** Without "..", processing only ever adds to what was kept. */
  lemma {:induction false} ResolveExtends(kept: seq<string>, elems: seq<string>, rooted: bool)
    requires NoParent(elems)
    ensures var r := Resolve(kept, elems, rooted);
            |kept| <= |r| && r[..|kept|] == kept
    decreases |elems|
  {
    if elems != [] {
      var next := Step(kept, elems[0], rooted);
      ResolveExtends(next, elems[1..], rooted);
      assert next[..|kept|] == kept;
    }
  }

  /** Joining more parts extends the join of the first ones. */
  lemma {:induction false} JoinExtends(k: seq<string>, m: seq<string>, sep: char)
    ensures Text.HasPrefix(Text.Join(k + m, sep), Text.Join(k, sep))
  {
    if |k| == 1 {
      if m != [] {
        assert (k + m)[1..] == m;
      } else {
        assert k + m == k;
      }
    } else if |k| >= 2 {
      assert (k + m)[1..] == k[1..] + m;
      JoinExtends(k[1..], m, sep);
    }
  }

  /** An absolute root already in clean form is a prefix of the cleaned path of anything
      below it that holds no "..". */
  lemma CleanRootPrefix(root: string, rest: string)
    requires Rooted(root) && Clean(root) == root && NoDoubleDot(rest)
    ensures Text.HasPrefix(Clean(root + "/" + rest), root)
  {
    var path := root + "/" + rest;
    assert Rooted(path) by { assert path[0] == root[0]; }
    var k := Resolve([], Text.Split(root, '/'), true);
    var r := Resolve([], Text.Split(path, '/'), true);
    RootResolveExtends(root, rest);
    assert r == k + r[|k|..];
    JoinExtends(k, r[|k|..], '/');
    CleanRooted(root);
    CleanRooted(path);
    SlashPrefix(Text.Join(r, '/'), Text.Join(k, '/'));
  }

  /** The elements kept for an absolute root extend to those kept for a ".."-free path below it. */
  lemma RootResolveExtends(root: string, rest: string)
    requires NoDoubleDot(rest)
    ensures var k := Resolve([], Text.Split(root, '/'), true);
            var r := Resolve([], Text.Split(root + "/" + rest, '/'), true);
            |k| <= |r| && r[..|k|] == k
  {
    SplitConcat(root, rest, '/');
    assert root + "/" + rest == root + ['/'] + rest;
    var k := Resolve([], Text.Split(root, '/'), true);
    ResolveConcat([], Text.Split(root, '/'), Text.Split(rest, '/'), true);
    SplitNoDoubleDot(rest, '/');
    NoDoubleDotNoParent(Text.Split(rest, '/'));
    ResolveExtends(k, Text.Split(rest, '/'), true);
  }

  /** An absolute path cleans to "/" and its kept elements. */
  lemma CleanRooted(path: string)
    requires Rooted(path)
    ensures Clean(path) == "/" + Text.Join(Resolve([], Text.Split(path, '/'), true), '/')
  {
  }

  /** A common leading separator keeps a prefix a prefix. */
  lemma SlashPrefix(s: string, p: string)
    requires Text.HasPrefix(s, p)
    ensures Text.HasPrefix("/" + s, "/" + p)
  {
    assert ("/" + s)[..|"/" + p|] == "/" + s[..|p|];
  }

  // ---------------------------------------------------------------------------
  // Plain elements come through unchanged

  /** A string without the separator is one piece. */
  lemma {:induction false} SplitNoSep(s: string, sep: char)
    requires sep !in s
    ensures Text.Split(s, sep) == [s]
  {
    if s != [] {
      SplitNoSep(s[1..], sep);
      assert [s[0]] + s[1..] == s;
    }
  }

  /** Splitting a join of separator-free parts gives the parts back. */
  lemma {:induction false} SplitJoin(parts: seq<string>, sep: char)
    requires parts != [] && forall k :: 0 <= k < |parts| ==> sep !in parts[k]
    ensures Text.Split(Text.Join(parts, sep), sep) == parts
  {
    if |parts| == 1 {
      SplitNoSep(parts[0], sep);
    } else {
      SplitJoin(parts[1..], sep);
      SplitConcat(parts[0], Text.Join(parts[1..], sep), sep);
      SplitNoSep(parts[0], sep);
    }
  }

  /** Plain elements are all kept, in order. */
  lemma {:induction false} ResolvePlain(kept: seq<string>, elems: seq<string>, rooted: bool)
    requires forall k :: 0 <= k < |elems| ==> PlainElem(elems[k])
    ensures Resolve(kept, elems, rooted) == kept + elems
    decreases |elems|
  {
    if elems != [] {
      ResolvePlain(kept + [elems[0]], elems[1..], rooted);
      assert kept + [elems[0]] + elems[1..] == kept + elems;
    }
  }

  /** A relative path of plain elements behind "./" cleans to the plain elements. */
  lemma DotRelative(parts: seq<string>)
    requires parts != [] && forall k :: 0 <= k < |parts| ==> PlainElem(parts[k])
    ensures Clean("./" + Text.Join(parts, '/')) == Text.Join(parts, '/')
  {
    var path := "./" + Text.Join(parts, '/');
    SplitDotRelative(parts);
    ResolveDot(parts);
    assert !Rooted(path);
  }

  lemma SplitDotRelative(parts: seq<string>)
    requires parts != [] && forall k :: 0 <= k < |parts| ==> PlainElem(parts[k])
    ensures Text.Split("./" + Text.Join(parts, '/'), '/') == ["."] + parts
  {
    assert "./" == "." + ['/'];
    SplitLead(".", parts, '/');
  }

  /** A separator-free lead, a separator and a join of separator-free parts split back
      into the lead and the parts. */
  lemma SplitLead(lead: string, parts: seq<string>, sep: char)
    requires sep !in lead
    requires parts != [] && forall k :: 0 <= k < |parts| ==> sep !in parts[k]
    ensures Text.Split(lead + [sep] + Text.Join(parts, sep), sep) == [lead] + parts
  {
    SplitConcat(lead, Text.Join(parts, sep), sep);
    SplitNoSep(lead, sep);
    SplitJoin(parts, sep);
  }

  lemma ResolveDot(parts: seq<string>)
    requires forall k :: 0 <= k < |parts| ==> PlainElem(parts[k])
    ensures Resolve([], ["."] + parts, false) == parts
  {
    assert (["."] + parts)[0] == "." && (["."] + parts)[1..] == parts;
    ResolvePlain([], parts, false);
  }

  // ---------------------------------------------------------------------------
  // No repeated separator survives

  /** No two separators in a row. */
  predicate NoDoubleSlash(s: string)
  {
    forall k :: 0 <= k < |s| - 1 ==> !(s[k] == '/' && s[k + 1] == '/')
  }

  /** A join of proper elements neither starts with a separator nor repeats one. */
  lemma {:induction false} JoinProper(parts: seq<string>)
    requires ProperElems(parts)
    ensures NoDoubleSlash(Text.Join(parts, '/'))
    ensures Text.Join(parts, '/') != [] ==> Text.Join(parts, '/')[0] != '/'
  {
    if |parts| >= 2 {
      JoinProper(parts[1..]);
      var a, b := parts[0], Text.Join(parts[1..], '/');
      var s := a + "/" + b;
      assert a != "" && '/' !in a;
      forall k | 0 <= k < |s| - 1 ensures !(s[k] == '/' && s[k + 1] == '/') {
        if k + 1 < |a| {
          assert s[k] == a[k];
        } else if k + 1 == |a| {
          assert s[k] == a[k];
        } else if k == |a| {
          assert s[k + 1] == b[0];
        } else {
          assert s[k] == b[k - |a| - 1] && s[k + 1] == b[k - |a|];
        }
      }
      assert s[0] == a[0];
    } else if |parts| == 1 {
      assert parts[0] != "" && '/' !in parts[0];
      assert parts[0][0] in parts[0];
    }
  }

  /** A cleaned path never holds two separators in a row. */
  lemma CleanNoDoubleSlash(path: string)
    ensures NoDoubleSlash(Clean(path))
  {
    var kept := Resolve([], Text.Split(path, '/'), Rooted(path));
    Text.SplitShape(path, '/');
    ResolveShape([], Text.Split(path, '/'), Rooted(path));
    JoinProper(kept);
    if Rooted(path) {
      var j := Text.Join(kept, '/');
      var s := "/" + j;
      forall k | 0 <= k < |s| - 1 ensures !(s[k] == '/' && s[k + 1] == '/') {
        if k == 0 {
          assert s[1] == j[0];
        } else {
          assert s[k] == j[k - 1] && s[k + 1] == j[k];
        }
      }
    }
  }

  /** A string with a repeated separator is no prefix of one without. */
  lemma DoubleSlashNoPrefix(s: string, p: string)
    requires NoDoubleSlash(s) && !NoDoubleSlash(p)
    ensures !Text.HasPrefix(s, p)
  {
    var k :| 0 <= k < |p| - 1 && p[k] == '/' && p[k + 1] == '/';
    if |p| <= |s| {
      assert s[..|p|][k] == s[k] && s[..|p|][k + 1] == s[k + 1];
    }
  }

  // ---------------------------------------------------------------------------
  // Joins of two and three parts

  lemma Join2(a: string, b: string, sep: char)
    ensures Text.Join([a, b], sep) == a + [sep] + b
  {
    assert [a, b][1..] == [b];
  }

  lemma Join3(a: string, b: string, c: string, sep: char)
    ensures Text.Join([a, b, c], sep) == a + [sep] + (b + [sep] + c)
  {
    assert [a, b, c][1..] == [b, c];
    Join2(b, c, sep);
  }
}

/**
  Names of objects in the bucket. Plain objects live under objects/, encrypted ones under objects/encrypted/ and the
  decimal generation; both split the hash after two characters. Paths are joined and cleaned as text.
 */
module Layout {

  // Slash-separated text

  /** strings.Split(s, "/") */
  function Split(s: string): (parts: seq<string>)
    ensures |parts| >= 1
  {
    if s == "" then [""]
    else if s[0] == '/' then [""] + Split(s[1..])
    else var rest := Split(s[1..]); [[s[0]] + rest[0]] + rest[1..]
  }

  /** strings.Join(parts, "/") */
  function Glue(parts: seq<string>): string {
    if parts == [] then "" else if |parts| == 1 then parts[0] else parts[0] + "/" + Glue(parts[1..])
  }

  predicate SlashFree(s: string) { '/' !in s }

  lemma {:induction false} SplitSlashFree(s: string)
    requires SlashFree(s)
    ensures Split(s) == [s]
  {
    if s != "" {
      assert SlashFree(s[1..]);
      SplitSlashFree(s[1..]);
      assert s == [s[0]] + s[1..];
    }
  }

  lemma {:induction false} SplitAtSlash(x: string, y: string)
    ensures Split(x + "/" + y) == Split(x) + Split(y)
  {
    var s := x + "/" + y;
    if x == "" {
      assert s[0] == '/' && s[1..] == y;
    } else {
      SplitAtSlash(x[1..], y);
      assert s[0] == x[0] && s[1..] == x[1..] + "/" + y;
      ConsFirst(x[0], Split(x[1..]), Split(y));
    }
  }

  lemma ConsFirst(c: char, parts: seq<string>, more: seq<string>)
    requires parts != []
    ensures [""] + (parts + more) == ([""] + parts) + more
    ensures [[c] + (parts + more)[0]] + (parts + more)[1..] == ([[c] + parts[0]] + parts[1..]) + more
  {
    assert (parts + more)[1..] == parts[1..] + more;
  }

  lemma {:induction false} SplitGlue(parts: seq<string>)
    requires parts != [] && forall i | 0 <= i < |parts| :: SlashFree(parts[i])
    ensures Split(Glue(parts)) == parts
  {
    SplitSlashFree(parts[0]);
    if |parts| > 1 {
      SplitGlue(parts[1..]);
      SplitAtSlash(parts[0], Glue(parts[1..]));
    }
  }

  lemma {:induction false} GlueAppend(a: seq<string>, b: seq<string>)
    requires a != [] && b != []
    ensures Glue(a + b) == Glue(a) + "/" + Glue(b)
  {
    assert (a + b)[0] == a[0] && (a + b)[1..] == a[1..] + b;
    if |a| > 1 {
      GlueAppend(a[1..], b);
      assert a[0] + "/" + (Glue(a[1..]) + "/" + Glue(b)) == (a[0] + "/" + Glue(a[1..])) + "/" + Glue(b);
    }
  }

  lemma {:induction false} SplitParts(s: string)
    ensures forall i | 0 <= i < |Split(s)| :: SlashFree(Split(s)[i])
    ensures Glue(Split(s)) == s
  {
    if s != "" {
      SplitParts(s[1..]);
      var rest := Split(s[1..]);
      if s[0] == '/' {
        assert Split(s)[1..] == rest;
        assert s == "" + "/" + s[1..];
      } else {
        assert Split(s)[1..] == rest[1..];
        assert s == [s[0]] + s[1..];
        if |rest| > 1 {
          assert [s[0]] + (rest[0] + "/" + Glue(rest[1..])) == ([s[0]] + rest[0]) + "/" + Glue(rest[1..]);
        }
      }
    }
  }

  // path.Clean and path.Join

  /** One pass over the segments of a path, with the segments kept so far as a stack. */
  function Reduce(rooted: bool, stack: seq<string>, segments: seq<string>): seq<string>
    decreases |segments|
  {
    if segments == [] then stack else
    var s, rest := segments[0], segments[1..];
    if s == "" || s == "." then Reduce(rooted, stack, rest)
    else if s == ".." then
      if stack != [] && stack[|stack| - 1] != ".." then Reduce(rooted, stack[..|stack| - 1], rest)
      else if rooted then Reduce(rooted, stack, rest)
      else Reduce(rooted, stack + [s], rest)
    else Reduce(rooted, stack + [s], rest)
  }

  predicate Rooted(path: string) { path != "" && path[0] == '/' }

  /** The segments that survive cleaning. */
  function Base(path: string): seq<string> { Reduce(Rooted(path), [], Split(path)) }

  function Render(rooted: bool, segments: seq<string>): string {
    if rooted then "/" + Glue(segments) else if segments == [] then "." else Glue(segments)
  }

  function Clean(path: string): string { Render(Rooted(path), Base(path)) }

  /** Joins what is not empty with slashes, then cleans; all-empty stays empty. */
  function Join(elements: seq<string>): string {
    var kept := NonEmpty(elements);
    if kept == [] then "" else Clean(Glue(kept))
  }

  function NonEmpty(elements: seq<string>): seq<string> {
    if elements == [] then [] else (if elements[0] == "" then [] else [elements[0]]) + NonEmpty(elements[1..])
  }

  predicate Ordinary(segment: string) {
    segment != "" && segment != "." && segment != ".." && SlashFree(segment)
  }

  predicate AllOrdinary(segments: seq<string>) { forall i | 0 <= i < |segments| :: Ordinary(segments[i]) }

  /** What cleaning leaves: ordinary segments, behind leading ".." in a relative path. */
  predicate IsClean(rooted: bool, segments: seq<string>) {
    forall i | 0 <= i < |segments| ::
      Ordinary(segments[i]) || (segments[i] == ".." && !rooted && forall j | 0 <= j < i :: segments[j] == "..")
  }

  lemma {:induction false} ReduceIsClean(rooted: bool, stack: seq<string>, segments: seq<string>)
    requires IsClean(rooted, stack) && forall i | 0 <= i < |segments| :: SlashFree(segments[i])
    ensures IsClean(rooted, Reduce(rooted, stack, segments))
    decreases |segments|
  {
    if segments != [] {
      var s, rest := segments[0], segments[1..];
      if s == "" || s == "." {
        ReduceIsClean(rooted, stack, rest);
      } else if s == ".." && stack != [] && stack[|stack| - 1] != ".." {
        ReduceIsClean(rooted, stack[..|stack| - 1], rest);
      } else if s == ".." && rooted {
        ReduceIsClean(rooted, stack, rest);
      } else {
        PushIsClean(rooted, stack, s);
        ReduceIsClean(rooted, stack + [s], rest);
      }
    }
  }

  lemma PushIsClean(rooted: bool, stack: seq<string>, s: string)
    requires IsClean(rooted, stack)
    requires Ordinary(s) || (s == ".." && !rooted && (stack == [] || stack[|stack| - 1] == ".."))
    ensures IsClean(rooted, stack + [s])
  {
    if s == ".." && stack != [] {
      assert !Ordinary(stack[|stack| - 1]);
    }
  }

  lemma {:induction false} ReduceAppend(rooted: bool, stack: seq<string>, a: seq<string>, b: seq<string>)
    ensures Reduce(rooted, stack, a + b) == Reduce(rooted, Reduce(rooted, stack, a), b)
    decreases |a|
  {
    if a == [] {
      assert a + b == b;
    } else {
      var s := a[0];
      assert (a + b)[0] == s && (a + b)[1..] == a[1..] + b;
      if s == "" || s == "." {
        ReduceAppend(rooted, stack, a[1..], b);
      } else if s == ".." && stack != [] && stack[|stack| - 1] != ".." {
        ReduceAppend(rooted, stack[..|stack| - 1], a[1..], b);
      } else if s == ".." && rooted {
        ReduceAppend(rooted, stack, a[1..], b);
      } else {
        ReduceAppend(rooted, stack + [s], a[1..], b);
      }
    }
  }

  /** Cleaning twice is cleaning once. */
  lemma {:induction false} ReduceClean(rooted: bool, stack: seq<string>, segments: seq<string>)
    requires IsClean(rooted, stack + segments)
    ensures Reduce(rooted, stack, segments) == stack + segments
    decreases |segments|
  {
    if segments == [] {
      assert stack + segments == stack;
    } else {
      var all := stack + segments;
      assert all[|stack|] == segments[0];
      if segments[0] == ".." && stack != [] {
        assert all[|stack| - 1] == "..";
      }
      assert (stack + [segments[0]]) + segments[1..] == all;
      ReduceClean(rooted, stack + [segments[0]], segments[1..]);
    }
  }

  lemma BaseIsClean(path: string)
    ensures IsClean(Rooted(path), Base(path))
  {
    SplitParts(path);
    ReduceIsClean(Rooted(path), [], Split(path));
  }

  /** Joining ordinary segments to any path appends them to the segments of the cleaned path. */
  lemma JoinOrdinary(path: string, segments: seq<string>)
    requires segments != [] && AllOrdinary(segments)
    ensures var joined := if path == "" then Glue(segments) else path + "/" + Glue(segments);
            Clean(joined) == Render(Rooted(path), Base(path) + segments)
    ensures IsClean(Rooted(path), Base(path) + segments)
  {
    var joined := if path == "" then Glue(segments) else path + "/" + Glue(segments);
    SplitGlue(segments);
    BaseIsClean(path);
    assert Rooted(joined) == Rooted(path) by {
      if path == "" { assert segments[0][0] != '/' && Glue(segments)[0] == segments[0][0]; }
    }
    var rooted := Rooted(path);
    if path != "" {
      SplitAtSlash(path, Glue(segments));
      ReduceAppend(rooted, [], Split(path), segments);
    } else {
      assert Base("") == [] by { assert Split("") == [""]; }
    }
    var all := Base(path) + segments;
    assert IsClean(rooted, all) by {
      forall i | 0 <= i < |all|
        ensures Ordinary(all[i]) || (all[i] == ".." && !rooted && forall j | 0 <= j < i :: all[j] == "..")
      {
        if i >= |Base(path)| { assert Ordinary(segments[i - |Base(path)|]); } else { assert all[i] == Base(path)[i]; }
      }
    }
    ReduceClean(rooted, Base(path), segments);
  }

  /** A cleaned path has the segments it was rendered from. */
  lemma BaseOfRender(rooted: bool, segments: seq<string>)
    requires segments != [] && IsClean(rooted, segments)
    ensures Base(Render(rooted, segments)) == segments && Rooted(Render(rooted, segments)) == rooted
  {
    var text := Render(rooted, segments);
    assert forall i | 0 <= i < |segments| :: SlashFree(segments[i]) && segments[i] != "";
    SplitGlue(segments);
    ReduceClean(rooted, [], segments);
    assert [] + segments == segments;
    if rooted {
      assert text == "" + "/" + Glue(segments);
      SplitAtSlash("", Glue(segments));
      assert Split("") == [""];
      assert Split(text)[1..] == segments;
    } else {
      assert Glue(segments)[0] == segments[0][0] != '/';
    }
  }

  lemma RenderInjective(rooted: bool, a: seq<string>, b: seq<string>)
    requires a != [] && b != [] && IsClean(rooted, a) && IsClean(rooted, b)
    requires Render(rooted, a) == Render(rooted, b)
    ensures a == b
  {
    BaseOfRender(rooted, a);
    BaseOfRender(rooted, b);
  }
}

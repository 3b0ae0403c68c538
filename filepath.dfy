/**
 * The lexical path rules of Go's `path/filepath` on Unix that the core relies on:
 * `IsAbs` and `Clean`. `Clean` is modelled for rooted paths only; that is the only
 * case the core can observe, because `Clean` of a relative path is never rooted
 * (so it never equals "/sys", and a relative path already fails `IsAbs`).
 */
module FilePath {

  /** `filepath.IsAbs` on Unix: the path starts with a slash. */
  predicate IsAbs(p: string) {
    |p| > 0 && p[0] == '/'
  }

  /** `strings.Split(s, "/")`: the parts between slashes, always at least one. */
  function Split(s: string): (parts: seq<string>)
    ensures |parts| >= 1
  {
    if s == [] then [""]
    else if s[0] == '/' then [""] + Split(s[1..])
    else
      var rest := Split(s[1..]);
      [[s[0]] + rest[0]] + rest[1..]
  }

  /** `strings.Join(parts, "/")`. */
  function Join(parts: seq<string>): string {
    if parts == [] then ""
    else if |parts| == 1 then parts[0]
    else parts[0] + "/" + Join(parts[1..])
  }

  /** One segment of Clean's lexical processing: empty and "." segments vanish,
      ".." removes the previous name (and is dropped at the root), a name is kept. */
  function Step(names: seq<string>, segment: string): seq<string> {
    if segment == "" || segment == "." then names
    else if segment == ".." then (if names == [] then [] else names[..|names| - 1])
    else names + [segment]
  }

  function Resolve(names: seq<string>, segments: seq<string>): seq<string>
    decreases |segments|
  {
    if segments == [] then names else Resolve(Step(names, segments[0]), segments[1..])
  }

  /** `filepath.Clean` of a rooted path: the resolved names joined under the root. */
  function CleanRooted(p: string): (c: string)
    requires IsAbs(p)
    ensures IsAbs(c)
  {
    "/" + Join(Resolve([], Split(p[1..])))
  }

  /** A segment that Clean keeps as it is. */
  predicate IsName(s: string) {
    s != "" && s != "." && s != ".." && '/' !in s
  }

  /** A path already in clean absolute form: "/" itself, or a slash followed by
      names separated by single slashes (no trailing slash, no "." or ".."). */
  predicate IsCleanAbsolute(p: string) {
    p == "/" || (IsAbs(p) && forall s | s in Split(p[1..]) :: IsName(s))
  }

  predicate AllNames(names: seq<string>) {
    forall s | s in names :: IsName(s)
  }

  lemma {:induction false} SplitHasNoSlash(s: string)
    ensures forall part | part in Split(s) :: '/' !in part
  {
    if s != [] {
      SplitHasNoSlash(s[1..]);
      if s[0] != '/' {
        var rest := Split(s[1..]);
        assert forall part | part in rest[1..] :: part in rest;
        assert rest[0] in rest;
      }
    }
  }

  lemma {:induction false} JoinSplit(s: string)
    ensures Join(Split(s)) == s
  {
    if s != [] {
      JoinSplit(s[1..]);
      var rest := Split(s[1..]);
      if s[0] == '/' {
        assert Split(s) == [""] + rest;
        assert Split(s)[1..] == rest;
      } else if |rest| > 1 {
        assert Split(s)[1..] == rest[1..];
      }
    }
  }

  lemma {:induction false} SplitOfName(a: string)
    requires '/' !in a
    ensures Split(a) == [a]
  {
    if a != [] {
      assert forall c | c in a[1..] :: c in a;
      SplitOfName(a[1..]);
      assert [a[0]] + a[1..] == a;
    }
  }

  lemma {:induction false} SplitOfCons(a: string, t: string)
    requires '/' !in a
    ensures Split(a + "/" + t) == [a] + Split(t)
  {
    if a == [] {
      assert a + "/" + t == "/" + t;
      assert ("/" + t)[1..] == t;
    } else {
      assert (a + "/" + t)[1..] == a[1..] + "/" + t;
      SplitOfCons(a[1..], t);
      assert [a[0]] + a[1..] == a;
    }
  }

  lemma {:induction false} SplitJoin(parts: seq<string>)
    requires |parts| >= 1
    requires forall part | part in parts :: '/' !in part
    ensures Split(Join(parts)) == parts
  {
    if |parts| == 1 {
      SplitOfName(parts[0]);
    } else {
      assert parts[0] in parts;
      assert forall part | part in parts[1..] :: part in parts;
      SplitJoin(parts[1..]);
      SplitOfCons(parts[0], Join(parts[1..]));
    }
  }

  lemma {:induction false} ResolveNames(names: seq<string>, segments: seq<string>)
    requires AllNames(segments)
    ensures Resolve(names, segments) == names + segments
    decreases |segments|
  {
    if segments != [] {
      assert segments[0] in segments;
      assert forall s | s in segments[1..] :: s in segments;
      ResolveNames(names + [segments[0]], segments[1..]);
      assert names + [segments[0]] + segments[1..] == names + segments;
    }
  }

  lemma {:induction false} ResolveKeepsNames(names: seq<string>, segments: seq<string>)
    requires AllNames(names)
    requires forall s | s in segments :: '/' !in s
    ensures AllNames(Resolve(names, segments))
    decreases |segments|
  {
    if segments != [] {
      var next := Step(names, segments[0]);
      assert segments[0] in segments;
      assert forall s | s in next :: s in names || s == segments[0];
      assert forall s | s in segments[1..] :: s in segments;
      ResolveKeepsNames(next, segments[1..]);
    }
  }

  /** Go's test `Clean(p) == p && IsAbs(p)` holds exactly of the paths in clean
      absolute form. */
  lemma {:induction false} CleanAbsoluteIff(p: string)
    ensures IsCleanAbsolute(p) <==> IsAbs(p) && CleanRooted(p) == p
  {
    if IsAbs(p) {
      var tail := p[1..];
      assert p == "/" + tail;
      var names := Resolve([], Split(tail));
      SplitHasNoSlash(tail);
      ResolveKeepsNames([], Split(tail));
      if IsCleanAbsolute(p) {
        if p == "/" {
          assert tail == "";
          assert Split(tail) == [""];
          assert Resolve([], [""]) == Resolve(Step([], ""), [""][1..]);
          assert names == [];
          assert CleanRooted(p) == "/" + Join([]);
        } else {
          ResolveNames([], Split(tail));
          assert names == Split(tail);
          JoinSplit(tail);
        }
      }
      if CleanRooted(p) == p {
        assert Join(names) == tail;
        if names == [] {
          assert p == "/";
        } else {
          SplitJoin(names);
          assert Split(tail) == names;
        }
      }
    }
  }
}

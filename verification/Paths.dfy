/** Path splitting for the REST-like control protocol. */
module Paths {

  predicate SlashFree(part: string) {
    '/' !in part
  }

  predicate Bare(path: string) {
    path == "" || (path[0] != '/' && path[|path| - 1] != '/')
  }

  /** Lists that can be read back from a path: interior parts may be empty, the outer ones may not. */
  predicate Splittable(parts: seq<string>) {
    && (forall i :: 0 <= i < |parts| ==> SlashFree(parts[i]))
    && (parts != [] ==> parts[0] != "" && parts[|parts| - 1] != "")
  }

  function Slashes(n: nat): string {
    seq(n, _ => '/')
  }

  function Join(parts: seq<string>): string {
    if parts == [] then ""
    else if |parts| == 1 then parts[0]
    else parts[0] + "/" + Join(parts[1..])
  }

  function DropFront(path: string): string {
    if path != "" && path[0] == '/' then DropFront(path[1..]) else path
  }

  function DropBack(path: string): string {
    if path != "" && path[|path| - 1] == '/' then DropBack(path[..|path| - 1]) else path
  }

  function Strip(path: string): string {
    DropBack(DropFront(path))
  }

  /** The position of the first slash, or the length of the path when there is none. */
  function FirstSlash(path: string): (k: nat)
    ensures k <= |path| && SlashFree(path[..k]) && (k < |path| ==> path[k] == '/')
  {
    if path == "" || path[0] == '/' then 0
    else
      assert path[..1 + FirstSlash(path[1..])] == [path[0]] + path[1..][..FirstSlash(path[1..])];
      1 + FirstSlash(path[1..])
  }

  function Pieces(path: string): seq<string> {
    if path == "" then []
    else
      var k := FirstSlash(path);
      if k == |path| then [path] else [path[..k]] + Pieces(path[k + 1..])
  }

  function PathParts(path: string): seq<string> {
    Pieces(Strip(path))
  }

  lemma Regroup(a: seq<string>, b: seq<string>, c: seq<string>)
    ensures a + (b + c) == a + b + c
  {
  }

  method SplitPath(input: string) returns (parts: seq<string>)
    ensures parts == PathParts(input)
  {
    var path := input;
    while path != "" && path[0] == '/'
      invariant DropFront(path) == DropFront(input)
      decreases |path|
    {
      path := path[1..];
    }
    while path != "" && path[|path| - 1] == '/'
      invariant DropBack(path) == Strip(input)
      decreases |path|
    {
      path := path[..|path| - 1];
    }
    parts := [];
    while path != ""
      invariant parts + Pieces(path) == PathParts(input)
      decreases |path|
    {
      var separator := FirstSlash(path);
      ghost var before := parts;
      parts := parts + [path[..separator]];
      if separator == |path| {
        assert path[..separator] == path;
        return;
      }
      Regroup(before, [path[..separator]], Pieces(path[separator + 1..]));
      path := path[separator + 1..];
    }
  }

  // ---------- stripping ----------

  lemma {:induction false} DropFrontOfPadded(n: nat, path: string)
    requires path == "" || path[0] != '/'
    ensures DropFront(Slashes(n) + path) == path
  {
    if n == 0 {
      assert Slashes(n) + path == path;
    } else {
      assert (Slashes(n) + path)[1..] == Slashes(n - 1) + path;
      DropFrontOfPadded(n - 1, path);
    }
  }

  lemma {:induction false} DropBackOfPadded(path: string, n: nat)
    requires path == "" || path[|path| - 1] != '/'
    ensures DropBack(path + Slashes(n)) == path
  {
    if n == 0 {
      assert path + Slashes(n) == path;
    } else {
      assert (path + Slashes(n))[..|path| + n - 1] == path + Slashes(n - 1);
      DropBackOfPadded(path, n - 1);
    }
  }

  lemma StripOfPadded(front: nat, path: string, back: nat)
    requires Bare(path)
    ensures Strip(Slashes(front) + path + Slashes(back)) == path
  {
    if path == "" {
      assert Slashes(front) + path + Slashes(back) == Slashes(front + back) + "";
      DropFrontOfPadded(front + back, "");
    } else {
      assert Slashes(front) + path + Slashes(back) == Slashes(front) + (path + Slashes(back));
      DropFrontOfPadded(front, path + Slashes(back));
      DropBackOfPadded(path, back);
    }
  }

  lemma {:induction false} DropFrontPads(path: string) returns (n: nat)
    ensures path == Slashes(n) + DropFront(path)
    ensures DropFront(path) == "" || DropFront(path)[0] != '/'
  {
    if path != "" && path[0] == '/' {
      var m := DropFrontPads(path[1..]);
      n := m + 1;
      assert path == "/" + path[1..];
    } else {
      n := 0;
    }
  }

  lemma {:induction false} DropBackPads(path: string) returns (n: nat)
    ensures path == DropBack(path) + Slashes(n)
    ensures DropBack(path) == "" || DropBack(path)[|DropBack(path)| - 1] != '/'
    ensures DropBack(path) != "" ==> DropBack(path)[0] == path[0]
  {
    if path != "" && path[|path| - 1] == '/' {
      var m := DropBackPads(path[..|path| - 1]);
      n := m + 1;
      assert path == path[..|path| - 1] + "/";
    } else {
      n := 0;
    }
  }

  /** Stripping removes exactly the outer slashes. */
  lemma StripPads(path: string) returns (front: nat, back: nat)
    ensures path == Slashes(front) + Strip(path) + Slashes(back)
    ensures Bare(Strip(path))
  {
    front := DropFrontPads(path);
    back := DropBackPads(DropFront(path));
  }

  // ---------- splitting and joining ----------

  lemma {:induction false} FirstSlashOf(part: string, rest: string)
    requires SlashFree(part)
    ensures FirstSlash(part + "/" + rest) == |part|
  {
    if part != "" {
      assert part[0] != '/';
      assert (part + "/" + rest)[1..] == part[1..] + "/" + rest;
      FirstSlashOf(part[1..], rest);
    }
  }

  lemma {:induction false} FirstSlashOfSlashFree(part: string)
    requires SlashFree(part)
    ensures FirstSlash(part) == |part|
  {
    if part != "" {
      assert part[0] != '/';
      FirstSlashOfSlashFree(part[1..]);
    }
  }

  lemma {:induction false} PiecesOfJoin(parts: seq<string>)
    requires forall i :: 0 <= i < |parts| ==> SlashFree(parts[i])
    requires parts != [] ==> parts[|parts| - 1] != ""
    ensures Pieces(Join(parts)) == parts
  {
    if |parts| == 1 {
      FirstSlashOfSlashFree(parts[0]);
    } else if |parts| > 1 {
      var rest := Join(parts[1..]);
      FirstSlashOf(parts[0], rest);
      assert Join(parts)[..|parts[0]|] == parts[0];
      assert Join(parts)[|parts[0]| + 1..] == rest;
      PiecesOfJoin(parts[1..]);
    }
  }

  lemma {:induction false} PiecesShape(path: string)
    requires path == "" || path[|path| - 1] != '/'
    ensures forall part <- Pieces(path) :: SlashFree(part)
    ensures path != "" ==> Pieces(path) != [] && Pieces(path)[|Pieces(path)| - 1] != ""
    ensures path != "" && path[0] != '/' ==> Pieces(path)[0] != ""
  {
    if path != "" {
      var k := FirstSlash(path);
      if k < |path| {
        var rest := path[k + 1..];
        assert rest[|rest| - 1] == path[|path| - 1];
        PiecesShape(rest);
      } else {
        assert path[..k] == path;
      }
    }
  }

  lemma JoinCons(first: string, parts: seq<string>)
    requires parts != []
    ensures Join([first] + parts) == first + "/" + Join(parts)
  {
    assert ([first] + parts)[1..] == parts;
  }

  lemma CutAt(path: string, k: nat)
    requires k < |path| && path[k] == '/'
    ensures path == path[..k] + "/" + path[k + 1..]
  {
  }

  lemma {:induction false} JoinOfPieces(path: string)
    requires path == "" || path[|path| - 1] != '/'
    ensures Join(Pieces(path)) == path
  {
    if path != "" {
      var k := FirstSlash(path);
      if k < |path| {
        var rest := path[k + 1..];
        assert rest != "" && rest[|rest| - 1] == path[|path| - 1];
        PiecesShape(rest);
        JoinOfPieces(rest);
        JoinCons(path[..k], Pieces(rest));
        CutAt(path, k);
      }
    }
  }

  /** Splitting and then joining gives the path without its outer slashes. */
  lemma JoinInvertsSplit(path: string)
    ensures Join(PathParts(path)) == Strip(path)
    ensures Splittable(PathParts(path))
  {
    var front, back := StripPads(path);
    JoinOfPieces(Strip(path));
    PiecesShape(Strip(path));
  }

  lemma {:induction false} JoinIsBare(parts: seq<string>)
    requires Splittable(parts)
    ensures Bare(Join(parts))
    ensures parts != [] ==> Join(parts) != "" && Join(parts)[0] == parts[0][0]
  {
    if |parts| > 1 {
      JoinEndsBare(parts[1..]);
    }
  }

  lemma {:induction false} JoinEndsBare(parts: seq<string>)
    requires parts != [] && SlashFree(parts[|parts| - 1]) && parts[|parts| - 1] != ""
    ensures Join(parts) != "" && Join(parts)[|Join(parts)| - 1] != '/'
  {
    if |parts| > 1 {
      JoinEndsBare(parts[1..]);
    }
  }

  /** Joining, padding with any number of slashes and splitting gives the parts back. */
  lemma SplitInvertsJoin(front: nat, parts: seq<string>, back: nat)
    requires Splittable(parts)
    ensures PathParts(Slashes(front) + Join(parts) + Slashes(back)) == parts
  {
    JoinIsBare(parts);
    StripOfPadded(front, Join(parts), back);
    PiecesOfJoin(parts);
  }

  lemma UnpaddedSplits(parts: seq<string>)
    requires Splittable(parts)
    ensures PathParts(Join(parts)) == parts
  {
    SplitInvertsJoin(0, parts, 0);
    assert Slashes(0) + Join(parts) + Slashes(0) == Join(parts);
  }

  /** The lists that some path splits into are exactly the splittable ones. */
  lemma SplitImage(parts: seq<string>)
    ensures (exists path :: PathParts(path) == parts) <==> Splittable(parts)
  {
    if path :| PathParts(path) == parts {
      JoinInvertsSplit(path);
    }
    if Splittable(parts) {
      UnpaddedSplits(parts);
    }
  }
}

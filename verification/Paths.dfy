/** Paths as the environment tools use them: texts with slashes, resolved without symbolic links. */
module Paths {
  import opened Strings
  import opened Lists

  /** An absolute path, by its segments. */
  type Path = seq<string>

  // ---- Reading a text as a path ----

  function FirstSlash(text: string): (i: nat)
    ensures i <= |text| && (i < |text| ==> text[i] == '/')
    ensures forall j | 0 <= j < i :: text[j] != '/'
  {
    if text == "" || text[0] == '/' then 0 else 1 + FirstSlash(text[1..])
  }

  function Kept(segment: string): Path {
    if segment == "" || segment == "." then [] else [segment]
  }

  /** The segments of a text: empty ones and single dots do not count. */
  function Segments(text: string): Path
    decreases |text|
  {
    var i := FirstSlash(text);
    if i == |text| then Kept(text) else Kept(text[..i]) + Segments(text[i + 1..])
  }

  predicate Absolute(text: string) {
    text != "" && text[0] == '/'
  }

  /** `directory / text` */
  function Join(directory: Path, text: string): Path {
    if Absolute(text) then Segments(text) else directory + Segments(text)
  }

  function Parent(p: Path): Path {
    if p == [] then [] else p[..|p| - 1]
  }

  function NameOf(p: Path): string {
    if p == [] then "" else p[|p| - 1]
  }

  // ---- Suffixes ----

  /** Where the last dot is, or the length. */
  function LastDot(name: string): (i: nat)
    ensures i <= |name|
  {
    if name == "" then 0
    else
      var n := |name| - 1;
      if name[n] == '.' then n
      else
        var i := LastDot(name[..n]);
        if i == n then |name| else i
  }

  /** `PurePath.stem` of a name. */
  function Stem(name: string): string {
    if 0 < LastDot(name) < |name| - 1 then name[..LastDot(name)] else name
  }

  /** `with_suffix` on a path with a name. */
  function WithSuffix(p: Path, suffix: string): Path {
    Parent(p) + [Stem(NameOf(p)) + suffix]
  }

  // ---- Resolving ----

  function Step(p: Path, segment: string): Path {
    if segment == ".." then Parent(p) else p + [segment]
  }

  /** `Path.resolve`, without symbolic links; above the root is the root. */
  function Resolve(p: Path): Path {
    if p == [] then [] else Step(Resolve(p[..|p| - 1]), p[|p| - 1])
  }

  /** What a relative path comes to: so many levels up, and then down. */
  datatype Way = Way(ups: nat, downs: Path)

  function WayStep(w: Way, segment: string): Way {
    if segment != ".." then Way(w.ups, w.downs + [segment])
    else if w.downs != [] then Way(w.ups, Parent(w.downs))
    else Way(w.ups + 1, [])
  }

  function WayOf(segments: Path): Way {
    if segments == [] then Way(0, []) else WayStep(WayOf(segments[..|segments| - 1]), segments[|segments| - 1])
  }

  function Climb(p: Path, ups: nat): Path {
    if ups >= |p| then [] else p[..|p| - ups]
  }

  lemma ClimbParent(p: Path, ups: nat)
    ensures Parent(Climb(p, ups)) == Climb(p, ups + 1)
  {
  }

  lemma ParentAppend(p: Path, q: Path)
    requires q != []
    ensures Parent(p + q) == p + Parent(q)
  {
  }

  lemma StepAlong(p: Path, w: Way, segment: string)
    ensures Step(Climb(p, w.ups) + w.downs, segment) == Climb(p, WayStep(w, segment).ups) + WayStep(w, segment).downs
  {
    if segment == ".." {
      if w.downs != [] {
        ParentAppend(Climb(p, w.ups), w.downs);
      } else {
        assert Climb(p, w.ups) + [] == Climb(p, w.ups);
        ClimbParent(p, w.ups);
      }
    } else {
      assert (Climb(p, w.ups) + w.downs) + [segment] == Climb(p, w.ups) + (w.downs + [segment]);
    }
  }

  lemma {:induction false} ResolveAppend(p: Path, q: Path)
    ensures Resolve(p + q) == Climb(Resolve(p), WayOf(q).ups) + WayOf(q).downs
  {
    if q == [] {
      assert p + q == p;
      assert Climb(Resolve(p), 0) == Resolve(p);
    } else {
      var init, last := q[..|q| - 1], q[|q| - 1];
      assert (p + q)[..|p + q| - 1] == p + init && (p + q)[|p + q| - 1] == last;
      ResolveAppend(p, init);
      StepAlong(Resolve(p), WayOf(init), last);
    }
  }

  predicate NoDots(p: Path) {
    forall i | 0 <= i < |p| :: p[i] != ".."
  }

  lemma {:induction false} ResolvedNoDots(p: Path)
    ensures NoDots(Resolve(p))
  {
    if p != [] {
      ResolvedNoDots(p[..|p| - 1]);
    }
  }

  lemma OneDown(q: Path, segment: string)
    requires WayOf(q).ups == 0 && WayOf(q).downs == q && segment != ".."
    ensures WayOf(q + [segment]).ups == 0 && WayOf(q + [segment]).downs == q + [segment]
  {
    assert (q + [segment])[..|q|] == q;
  }

  lemma {:induction false} NoDotsTo(q: Path, n: nat)
    requires n <= |q| && NoDots(q)
    ensures WayOf(q[..n]).ups == 0 && WayOf(q[..n]).downs == q[..n]
  {
    if n > 0 {
      NoDotsTo(q, n - 1);
      OneDown(q[..n - 1], q[n - 1]);
      assert q[..n - 1] + [q[n - 1]] == q[..n];
    }
  }

  lemma NoDotsWay(q: Path)
    requires NoDots(q)
    ensures WayOf(q).ups == 0 && WayOf(q).downs == q
  {
    NoDotsTo(q, |q|);
    assert q[..|q|] == q;
  }

  /** Segments without dots are appended as they are. */
  lemma ResolveDown(p: Path, q: Path)
    requires NoDots(q)
    ensures Resolve(p + q) == Resolve(p) + q
  {
    ResolveAppend(p, q);
    NoDotsWay(q);
    assert Climb(Resolve(p), 0) == Resolve(p);
  }

  lemma ResolveTwice(p: Path)
    ensures Resolve(Resolve(p)) == Resolve(p)
  {
    ResolvedNoDots(p);
    ResolveDown([], Resolve(p));
    assert [] + Resolve(p) == Resolve(p);
  }

  lemma {:induction false} WayDowns(q: Path)
    ensures NoDots(WayOf(q).downs) && forall x | x in WayOf(q).downs :: x in q
  {
    if q != [] {
      WayDowns(q[..|q| - 1]);
    }
  }

  // ---- Names that end in `.yaml` ----

  const YAML := ".yaml"

  predicate EndsYaml(name: string) {
    |name| >= 5 && name[|name| - 5..] == YAML
  }

  /** The last segment of a text that ends in `.yaml` does too. */
  lemma {:induction false} YamlSegment(front: string)
    ensures Segments(front + YAML) != [] && EndsYaml(NameOf(Segments(front + YAML)))
    decreases |front|
  {
    var text := front + YAML;
    var i := FirstSlash(text);
    assert text[|text| - 5..] == YAML;
    assert YAML[0] == '.' && YAML[1] == 'y' && YAML[2] == 'a' && YAML[3] == 'm' && YAML[4] == 'l';
    assert forall j | |front| <= j < |text| :: text[j] == YAML[j - |front|] && text[j] != '/';
    if i < |text| {
      assert i < |front|;
      assert text[i + 1..] == front[i + 1..] + YAML;
      YamlSegment(front[i + 1..]);
      LastOf(Kept(text[..i]), Segments(text[i + 1..]));
    } else {
      assert Segments(text) == [text];
    }
  }

  lemma LastOf(p: Path, q: Path)
    requires q != []
    ensures p + q != [] && NameOf(p + q) == NameOf(q) && Parent(p + q) == p + Parent(q)
  {
  }

  lemma YamlNoDots(name: string)
    requires EndsYaml(name)
    ensures name != ".." && name != "" && name[|name| - 1] == 'l'
  {
    assert name[|name| - 1] == YAML[4];
  }

  /** Resolving a path with a plain name resolves its parent. */
  lemma ResolveNamed(p: Path)
    requires p != [] && NameOf(p) != ".."
    ensures Resolve(p) == Resolve(Parent(p)) + [NameOf(p)]
  {
  }

  lemma NoDotsBelow(segment: string, p: Path, n: nat)
    requires segment != ".." && NoDots(p) && n <= |p|
    ensures NoDots([segment] + p[n..]) && NoDots([segment] + [])
  {
  }

  /** A text that starts with one segment and a slash. */
  lemma SegmentsBelow(front: string, rest: string)
    requires front != "" && front != "." && '/' !in front
    ensures Segments(front + "/" + rest) == [front] + Segments(rest)
  {
    var text := front + "/" + rest;
    assert text[|front|] == '/';
    assert forall j | 0 <= j < |front| :: text[j] == front[j];
    assert FirstSlash(text) == |front|;
    assert text[..|front|] == front && text[|front| + 1..] == rest;
  }

  // ---- Relative references ----

  /** How many segments two paths have in common at their beginning. */
  function Common(p: Path, q: Path): (n: nat)
    ensures n <= |p| && n <= |q| && p[..n] == q[..n]
    ensures n < |p| && n < |q| ==> p[n] != q[n]
  {
    if p == [] || q == [] || p[0] != q[0] then 0 else 1 + Common(p[1..], q[1..])
  }

  function Dots(n: nat): Path {
    seq(n, _ => "..")
  }

  /** From a directory up to what it has in common with the target, and down to the target. */
  function RelativeSegments(directory: Path, target: Path): Path {
    var n := Common(directory, target);
    Dots(|directory| - n) + target[n..]
  }

  function Slashed(segments: Path): string {
    if segments == [] then "."
    else if |segments| == 1 then segments[0]
    else segments[0] + "/" + Slashed(segments[1..])
  }

  /** `replace("\\", "/")` */
  function Forward(text: string): string {
    seq(|text|, i requires 0 <= i < |text| => if text[i] == '\\' then '/' else text[i])
  }

  /** `os.path.relpath(target, start=directory).replace("\\", "/")` */
  function Relative(directory: Path, target: Path): string {
    Forward(Slashed(RelativeSegments(directory, target)))
  }

  /** What a segment of a path can be, once dots are resolved. */
  predicate Proper(segment: string) {
    segment != "" && segment != "." && '/' !in segment
  }

  predicate AllProper(p: Path) {
    forall i | 0 <= i < |p| :: Proper(p[i])
  }

  lemma {:induction false} SegmentsProper(text: string)
    ensures AllProper(Segments(text)) && forall x, c | x in Segments(text) && c in x :: c in text
    decreases |text|
  {
    var i := FirstSlash(text);
    if i < |text| {
      SegmentsProper(text[i + 1..]);
    }
  }

  lemma {:induction false} ResolvedMembers(p: Path)
    ensures forall x | x in Resolve(p) :: x in p
  {
    if p != [] {
      ResolvedMembers(p[..|p| - 1]);
    }
  }

  lemma SplitSlashed(segments: Path)
    requires |segments| >= 2
    ensures Slashed(segments) == segments[0] + "/" + Slashed(segments[1..])
  {
  }

  lemma {:induction false} SlashedSegments(segments: Path)
    requires AllProper(segments)
    ensures Segments(Slashed(segments)) == segments && !Absolute(Slashed(segments))
  {
    if segments == [] {
      assert FirstSlash(".") == 1;
    } else if |segments| == 1 {
      assert FirstSlash(segments[0]) == |segments[0]|;
    } else {
      assert segments[0][0] in segments[0];
      SlashedSegments(segments[1..]);
      SegmentsBelow(segments[0], Slashed(segments[1..]));
      SplitSlashed(segments);
      assert segments == [segments[0]] + segments[1..];
    }
  }

  lemma ForwardPlain(text: string)
    ensures '\\' !in Forward(text) && ('\\' !in text ==> Forward(text) == text)
  {
  }

  lemma {:induction false} DotsWay(n: nat)
    ensures WayOf(Dots(n)).ups == n && WayOf(Dots(n)).downs == []
  {
    if n > 0 {
      DotsWay(n - 1);
      assert Dots(n)[..n - 1] == Dots(n - 1);
    }
  }

  lemma ResolvedAlready(p: Path)
    requires NoDots(p)
    ensures Resolve(p) == p
  {
    ResolveDown([], p);
    assert [] + p == p;
  }

  lemma UpTo(directory: Path, n: nat)
    requires n <= |directory| && NoDots(directory)
    ensures Resolve(directory + Dots(|directory| - n)) == directory[..n]
  {
    var k := |directory| - n;
    DotsWay(k);
    ResolveAppend(directory, Dots(k));
    ResolvedAlready(directory);
    assert Climb(directory, k) == directory[..n];
    assert directory[..n] + [] == directory[..n];
  }

  lemma UpAndDown(directory: Path, up: Path, down: Path, common: Path)
    requires Resolve(directory + up) == common && NoDots(down)
    ensures Resolve(directory + (up + down)) == common + down
  {
    Assoc(directory, up, down);
    ResolveDown(directory + up, down);
  }

  lemma SplitBack(p: Path, n: nat)
    requires n <= |p|
    ensures p[..n] + p[n..] == p
  {
  }

  /** Up to the common part and down again. */
  lemma ReferenceResolves(directory: Path, target: Path)
    requires NoDots(directory) && NoDots(target)
    ensures Resolve(directory + RelativeSegments(directory, target)) == target
  {
    var n := Common(directory, target);
    var up, down := Dots(|directory| - n), target[n..];
    UpTo(directory, n);
    SplitBack(target, n);
    UpAndDown(directory, up, down, target[..n]);
  }

  lemma RelativeProper(directory: Path, target: Path)
    requires AllProper(target)
    ensures AllProper(RelativeSegments(directory, target))
  {
  }

  /** A backslash is on the way from the directory to the target. */
  predicate Backslashed(directory: Path, target: Path) {
    exists m :: Common(directory, target) <= m < |target| && '\\' in target[m]
  }

  lemma {:induction false} SlashedChars(segments: Path)
    ensures '\\' in Slashed(segments) <==> exists i :: 0 <= i < |segments| && '\\' in segments[i]
  {
    if |segments| >= 2 {
      SlashedChars(segments[1..]);
      SplitSlashed(segments);
      assert forall i | 1 <= i < |segments| :: segments[i] == segments[1..][i - 1];
    }
  }

  lemma ReferenceChars(directory: Path, target: Path)
    ensures '\\' in Slashed(RelativeSegments(directory, target)) <==> Backslashed(directory, target)
  {
    var n := Common(directory, target);
    var segments := RelativeSegments(directory, target);
    SlashedChars(segments);
    var k := |directory| - n;
    assert forall m | n <= m < |target| :: segments[k + m - n] == target[m];
    assert forall i | 0 <= i < k :: segments[i] == "..";
    assert forall i | k <= i < |segments| :: segments[i] == target[i - k + n];
  }

  /** What is reached by climbing from the directory and descending without backslashes is not the target. */
  lemma Elsewhere(directory: Path, target: Path, ups: nat, downs: Path, m: nat)
    requires Common(directory, target) <= m < |target| && '\\' in target[m]
    requires forall x | x in downs :: '\\' !in x
    ensures Climb(directory, ups) + downs != target
  {
    var n, front := Common(directory, target), Climb(directory, ups);
    var found := front + downs;
    if m < |front| {
      assert found[n] == front[n] == directory[n] != target[n];
    } else if m < |found| {
      assert found[m] == downs[m - |front|];
      assert found[m] in downs;
    }
  }

  lemma Misled(directory: Path, target: Path, text: string)
    requires NoDots(directory) && Backslashed(directory, target) && '\\' !in text
    ensures Resolve(Join(directory, text)) != target
  {
    var n := Common(directory, target);
    var m :| n <= m < |target| && '\\' in target[m];
    SegmentsProper(text);
    var below := Segments(text);
    if Absolute(text) {
      ResolvedMembers(below);
      assert target[m] !in Resolve(below);
    } else {
      ResolveAppend(directory, below);
      ResolvedAlready(directory);
      WayDowns(below);
      Elsewhere(directory, target, WayOf(below).ups, WayOf(below).downs, m);
    }
  }

  /** The reference leads from the directory to the target exactly when no backslash is on the way: backslashes
      are read as slashes. */
  lemma ReferenceFindsExactly(directory: Path, target: Path)
    requires NoDots(directory) && NoDots(target) && AllProper(target)
    ensures Resolve(Join(directory, Relative(directory, target))) == target <==> !Backslashed(directory, target)
  {
    var text := Slashed(RelativeSegments(directory, target));
    ForwardPlain(text);
    ReferenceChars(directory, target);
    if Backslashed(directory, target) {
      Misled(directory, target, Forward(text));
    } else {
      RelativeProper(directory, target);
      SlashedSegments(RelativeSegments(directory, target));
      ReferenceResolves(directory, target);
    }
  }
}

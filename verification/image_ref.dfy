/**
 * Image references as the monitor composes them: plain string joining,
 * with no validation of the characters used.
 */
module ImageRef {

  /** The tag every reference the monitor builds carries. */
  const LatestTag: string := "latest"

  /** Go's `strings.Join`: the parts in order, with `sep` between neighbours. */
  function Join(parts: seq<string>, sep: string): string
  {
    if |parts| == 0 then ""
    else if |parts| == 1 then parts[0]
    else parts[0] + sep + Join(parts[1..], sep)
  }

  lemma JoinPair(a: string, b: string, sep: string)
    ensures Join([a, b], sep) == a + sep + b
  {
    assert [a, b][1..] == [b];
  }

  lemma JoinTriple(a: string, b: string, c: string, sep: string)
    ensures Join([a, b, c], sep) == a + sep + b + sep + c
  {
    assert [a, b, c][1..] == [b, c];
    JoinPair(b, c, sep);
  }

  /** `repository:latest`, the reference the test image is pulled under. */
  function ImagePath(repository: string): (r: string)
    ensures r == repository + ":latest"
  {
    JoinPair(repository, LatestTag, ":");
    Join([repository, LatestTag], ":")
  }

  /**
   * `registry/repository/base:latest` when a base image is named, and
   * `registry/repository:latest` otherwise.
   */
  function FullImageRef(registry: string, repository: string, baseImage: string): (r: string)
    ensures baseImage != "" ==> r == registry + "/" + repository + "/" + baseImage + ":latest"
    ensures baseImage == "" ==> r == registry + "/" + repository + ":latest"
  {
    if baseImage != "" then
      JoinTriple(registry, repository, ImagePath(baseImage), "/");
      Join([registry, repository, ImagePath(baseImage)], "/")
    else
      JoinPair(registry, ImagePath(repository), "/");
      Join([registry, ImagePath(repository)], "/")
  }

  /** Distinct repositories give distinct test-image references. */
  lemma ImagePathInjective(a: string, b: string)
    requires ImagePath(a) == ImagePath(b)
    ensures a == b
  {
    assert |a| == |b|;
    assert a == ImagePath(a)[..|a|];
    assert b == ImagePath(b)[..|b|];
  }

  /**
   * For a fixed registry and repository the reference determines the base
   * image, and the empty base (the reference pushed every cycle) differs
   * from every named base.
   */
  lemma FullImageRefDeterminesBase(registry: string, repository: string, b1: string, b2: string)
    requires FullImageRef(registry, repository, b1) == FullImageRef(registry, repository, b2)
    ensures b1 == b2
  {
    var r := FullImageRef(registry, repository, b1);
    var p := |registry| + |repository| + 2;
    if b1 != "" && b2 != "" {
      assert |b1| == |b2|;
      assert b1 == r[p..p + |b1|];
      assert b2 == r[p..p + |b2|];
    }
  }
}

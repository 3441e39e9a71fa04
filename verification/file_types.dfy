/** The file-type filter applied to a Thing's file list: a file is shown when
    the suffix of its name, in the sense of Python's `pathlib`, lower-cased and
    stripped of dots, is one of the file types the host can read. */
module FileTypes {
  import opened Wrappers
  import opened Strings
  import opened Records
  import opened Sequences

  /** The final component of a POSIX path, as `PurePosixPath(path).name`:
      the path is split at '/', empty and "." parts are dropped, and the
      last remaining part is the name ("" when none remains). */
  function FinalComponent(path: string): (name: string)
    ensures forall j :: 0 <= j < |name| ==> name[j] != '/'
    ensures name != "."
    ensures |name| <= |path|
    decreases |path|
  {
    match LastIndexOf(path, '/')
    case None => if path == "." then "" else path
    case Some(i) =>
      var part := path[i + 1..];
      if part == "" || part == "." then FinalComponent(path[..i]) else part
  }

  /** A plain name is its own final component, also below any directory. */
  lemma {:induction false} FinalComponentOfPlainName(dir: string, name: string)
    requires forall j :: 0 <= j < |name| ==> name[j] != '/'
    requires name != "" && name != "."
    ensures FinalComponent(name) == name
    ensures FinalComponent(dir + "/" + name) == name
  {
    var path := dir + "/" + name;
    assert path[|dir|] == '/';
    forall j | |dir| < j < |path|
      ensures path[j] != '/'
    {
      assert path[j] == name[j - |dir| - 1];
    }
    LastIndexOfAt(path, '/', |dir|);
    assert path[|dir| + 1..] == name;
  }

  /** `i` is the position of the dot that starts a suffix of `name`: the
      last dot, neither the first nor the last character. */
  predicate IsSuffixDot(name: string, i: int) {
    0 < i < |name| - 1 && name[i] == '.' && forall j :: i < j < |name| ==> name[j] != '.'
  }

  /** Where the suffix of a final component starts, if it has one. */
  function SuffixDot(name: string): (r: Option<nat>)
    ensures r.Some? ==> IsSuffixDot(name, r.value)
    ensures r.None? ==> forall i :: !IsSuffixDot(name, i)
  {
    match LastIndexOf(name, '.')
    case None => None
    case Some(i) => if 0 < i < |name| - 1 then Some(i) else None
  }

  /** `PurePath.suffix` of a final component: the text from its last '.' on,
      provided that dot is neither the first nor the last character. */
  function Suffix(name: string): (r: string)
    ensures r == "" || (2 <= |r| < |name| && EndsWith(name, r) && r[0] == '.'
                        && forall j :: 1 <= j < |r| ==> r[j] != '.')
  {
    match SuffixDot(name)
    case None => ""
    case Some(i) => name[i..]
  }

  /** `suffix.lower().strip(".")` of a final component. */
  function NameExtension(name: string): string {
    Strip(Lower(Suffix(name)), '.')
  }

  /** `pathlib.Path(fileName).suffix.lower().strip(".")`. */
  function Extension(fileName: string): string {
    NameExtension(FinalComponent(fileName))
  }

  /** At most one position starts a suffix. */
  lemma SuffixDotUnique(name: string, i: int, k: int)
    requires IsSuffixDot(name, i) && IsSuffixDot(name, k)
    ensures i == k
  {
  }

  /** With a suffix dot at `k`, the suffix is the text from `k` on. */
  lemma SuffixAt(name: string, k: int)
    requires IsSuffixDot(name, k)
    ensures Suffix(name) == name[k..]
  {
    SuffixDotUnique(name, SuffixDot(name).value, k);
  }

  /** Lower-casing keeps a leading dot, and text free of dots stays so. */
  lemma {:induction false} LowerAfterDot(x: string)
    requires forall j :: 0 <= j < |x| ==> x[j] != '.'
    ensures Lower(['.'] + x) == ['.'] + Lower(x)
    ensures forall j :: 0 <= j < |Lower(x)| ==> Lower(x)[j] != '.'
  {
    var d := ['.'] + x;
    assert d[1..] == x;
  }

  /** With a suffix dot at `k`, the extension is the lower-cased rest. */
  lemma {:induction false} NameExtensionAt(name: string, k: int)
    requires IsSuffixDot(name, k)
    ensures NameExtension(name) == Lower(name[k + 1..])
    ensures forall j :: 0 <= j < |NameExtension(name)| ==> NameExtension(name)[j] != '.'
  {
    var x := name[k + 1..];
    SuffixAt(name, k);
    assert name[k..] == ['.'] + x;
    LowerAfterDot(x);
    StripSingleLeading(Lower(x), '.');
  }

  /** Without a suffix dot there is no suffix, so no extension. */
  lemma NameExtensionWithoutDot(name: string)
    requires SuffixDot(name).None?
    ensures NameExtension(name) == ""
  {
  }

  /** The extension of a final component is the lower-cased text after its
      suffix dot, and empty exactly when it has no suffix dot. */
  lemma {:induction false} NameExtensionSpec(name: string)
    ensures forall i :: IsSuffixDot(name, i) ==> NameExtension(name) == Lower(name[i + 1..])
    ensures (forall i :: !IsSuffixDot(name, i)) <==> NameExtension(name) == ""
  {
    NameExtensionAfterDot(name);
    NameExtensionEmptyIff(name);
  }

  /** At any suffix dot, the extension is the lower-cased text after it. */
  lemma {:induction false} NameExtensionAfterDot(name: string)
    ensures forall i :: IsSuffixDot(name, i) ==> NameExtension(name) == Lower(name[i + 1..])
  {
    forall i | IsSuffixDot(name, i)
      ensures NameExtension(name) == Lower(name[i + 1..])
    {
      NameExtensionAt(name, i);
    }
  }

  /** The extension is empty exactly when the name has no suffix dot. */
  lemma {:induction false} NameExtensionEmptyIff(name: string)
    ensures (forall i :: !IsSuffixDot(name, i)) <==> NameExtension(name) == ""
  {
    match SuffixDot(name)
    case None =>
      NameExtensionWithoutDot(name);
    case Some(k) =>
      NameExtensionAt(name, k);
      var ext := NameExtension(name);
      assert |ext| == |name| - k - 1 > 0;
  }

  /** A lower-cased extension contains neither dots nor ASCII capitals. */
  lemma {:induction false} NameExtensionIsBare(name: string)
    ensures forall j :: 0 <= j < |NameExtension(name)| ==>
              NameExtension(name)[j] != '.' && !IsUpper(NameExtension(name)[j])
  {
    match SuffixDot(name)
    case None =>
      NameExtensionWithoutDot(name);
    case Some(k) =>
      NameExtensionAt(name, k);
      var x := name[k + 1..];
      LowerProperties(x);
  }

  /** The same, read through the final component of a path. */
  lemma {:induction false} ExtensionSpec(fileName: string)
    ensures var name := FinalComponent(fileName);
            && (forall i :: IsSuffixDot(name, i) ==> Extension(fileName) == Lower(name[i + 1..]))
            && ((forall i :: !IsSuffixDot(name, i)) <==> Extension(fileName) == "")
  {
    var name := FinalComponent(fileName);
    assert Extension(fileName) == NameExtension(name);
    NameExtensionSpec(name);
  }

  /** The extension of any path contains neither dots nor ASCII capitals. */
  lemma {:induction false} ExtensionIsBare(fileName: string)
    ensures forall j :: 0 <= j < |Extension(fileName)| ==>
              Extension(fileName)[j] != '.' && !IsUpper(Extension(fileName)[j])
  {
    var name := FinalComponent(fileName);
    assert Extension(fileName) == NameExtension(name);
    NameExtensionIsBare(name);
  }

  /** Whether a file is shown: its extension is one of the readable types. */
  predicate IsSupported(file: ThingFile, fileTypes: seq<string>) {
    Extension(file.name) in fileTypes
  }

  /** The list comprehension that filters a Thing's files, keeping each
      file whose extension is a readable type. */
  function FilterSupported(files: seq<ThingFile>, fileTypes: seq<string>): (kept: seq<ThingFile>)
    ensures forall i :: 0 <= i < |kept| ==> IsSupported(kept[i], fileTypes)
    ensures forall f :: f in kept <==> f in files && IsSupported(f, fileTypes)
  {
    Filter(files, f => IsSupported(f, fileTypes))
  }

  /** The kept files are an order-preserving subsequence of the input, each
      kept exactly as often as it occurs when supported and never otherwise. */
  lemma FilterSupportedShape(files: seq<ThingFile>, fileTypes: seq<string>)
    ensures IsSubsequence(FilterSupported(files, fileTypes), files)
    ensures forall f :: multiset(FilterSupported(files, fileTypes))[f]
                          == if IsSupported(f, fileTypes) then multiset(files)[f] else 0
  {
    FilterIsSubsequence(files, f => IsSupported(f, fileTypes));
    forall f {
      FilterMultiplicity(files, f => IsSupported(f, fileTypes), f);
    }
  }

  /** Filtering a concatenation filters each part: nothing is reordered. */
  lemma FilterSupportedAppend(a: seq<ThingFile>, b: seq<ThingFile>, fileTypes: seq<string>)
    ensures FilterSupported(a + b, fileTypes) == FilterSupported(a, fileTypes) + FilterSupported(b, fileTypes)
  {
    FilterAppend(a, b, f => IsSupported(f, fileTypes));
  }

  /** Filtering twice is filtering once. */
  lemma FilterSupportedIdempotent(files: seq<ThingFile>, fileTypes: seq<string>)
    ensures FilterSupported(FilterSupported(files, fileTypes), fileTypes) == FilterSupported(files, fileTypes)
  {
    FilterKeepsAll(FilterSupported(files, fileTypes), f => IsSupported(f, fileTypes));
  }

  /** A plain name `stem.ext` whose `ext` has no dot has extension
      `lower(ext)`, whatever dots the stem holds. */
  lemma {:induction false} ExtensionOfDottedName(stem: string, ext: string)
    requires stem != "" && ext != ""
    requires forall j :: 0 <= j < |stem| ==> stem[j] != '/'
    requires forall j :: 0 <= j < |ext| ==> ext[j] != '/' && ext[j] != '.'
    ensures Extension(stem + "." + ext) == Lower(ext)
  {
    var name := stem + "." + ext;
    forall j | 0 <= j < |name|
      ensures name[j] != '/'
    {
      if j > |stem| { assert name[j] == ext[j - |stem| - 1]; }
    }
    FinalComponentOfPlainName("", name);
    var k := |stem|;
    forall j | k < j < |name|
      ensures name[j] != '.'
    {
      assert name[j] == ext[j - |stem| - 1];
    }
    assert IsSuffixDot(name, k);
    NameExtensionSpec(name);
    assert name[k + 1..] == ext;
  }

  /** The readable types of the filtering example below. */
  const ExampleTypes: seq<string> := ["stl", "obj"]

  predicate IsPlainStem(stem: string) {
    stem != "" && forall j :: 0 <= j < |stem| ==> stem[j] != '/'
  }

  predicate IsPlainExt(ext: string) {
    ext != "" && forall j :: 0 <= j < |ext| ==> ext[j] != '/' && ext[j] != '.'
  }

  /** A file named `stem.ext` is shown exactly when `lower(ext)` is readable. */
  lemma DottedFileSupport(f: ThingFile, stem: string, ext: string, fileTypes: seq<string>)
    requires IsPlainStem(stem) && IsPlainExt(ext)
    requires f.name == stem + "." + ext
    ensures IsSupported(f, fileTypes) <==> Lower(ext) in fileTypes
  {
    ExtensionOfDottedName(stem, ext);
  }

  lemma ExampleExtensions()
    ensures IsPlainExt("STL") && Lower("STL") == "stl"
    ensures IsPlainExt("gcode") && Lower("gcode") == "gcode"
    ensures IsPlainExt("obj") && Lower("obj") == "obj"
    ensures "stl" in ExampleTypes && "obj" in ExampleTypes && "gcode" !in ExampleTypes
  {
  }

  /** With the readable types "stl" and "obj", files named `x.STL`, `y.gcode`
      and `z.obj` filter to the first and the last, names unchanged. */
  lemma {:induction false} FilterExample(a: ThingFile, b: ThingFile, c: ThingFile, x: string, y: string, z: string)
    requires IsPlainStem(x) && IsPlainStem(y) && IsPlainStem(z)
    requires a.name == x + "." + "STL" && b.name == y + "." + "gcode" && c.name == z + "." + "obj"
    ensures FilterSupported([a, b, c], ExampleTypes) == [a, c]
  {
    ExampleExtensions();
    DottedFileSupport(a, x, "STL", ExampleTypes);
    DottedFileSupport(b, y, "gcode", ExampleTypes);
    DottedFileSupport(c, z, "obj", ExampleTypes);
    assert IsSupported(a, ExampleTypes) && !IsSupported(b, ExampleTypes) && IsSupported(c, ExampleTypes);
    FilterDropsMiddle(a, b, c, f => IsSupported(f, ExampleTypes));
  }
}

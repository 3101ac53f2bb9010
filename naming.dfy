/**
 * File-name building shared by both scripts: removing the characters a
 * Windows file name may not hold, the `.pdf` extension, the `_k` suffix
 * names tried on a collision, the least free suffix, and the search loop
 * `while new_path.exists(): ...; counter += 1` itself.
 */
module Naming {
  import opened Text

  /** The class of the sanitising pattern: backslash, slash, star, question mark, colon, double quote, angle brackets and bar. */
  const Reserved: set<char> := {'\\', '/', '*', '?', ':', '"', '<', '>', '|'}

  const Extension: string := ".pdf"

  /** `re.sub` of that class by the empty string: every reserved character removed. */
  function RemoveReserved(s: string): (r: string)
    ensures NoneOf(r, Reserved)
  {
    Without(s, Reserved)
  }

  /** Sanitising is idempotent, and a name with no reserved character is left alone. */
  lemma RemoveReservedIdempotent(s: string)
    ensures RemoveReserved(RemoveReserved(s)) == RemoveReserved(s)
    ensures NoneOf(s, Reserved) ==> RemoveReserved(s) == s
  {
    WithoutIdempotent(s, Reserved);
    WithoutIdentity(s, Reserved);
  }

  /** `f"{base}_{k}.pdf"`. */
  function SuffixName(base: string, k: nat): (r: string)
    ensures |r| == |base| + 1 + |Dec(k)| + |Extension|
  {
    base + "_" + Dec(k) + Extension
  }

  /** Different counters give different names. */
  lemma SuffixNameInjective(base: string, j: nat, k: nat)
    requires SuffixName(base, j) == SuffixName(base, k)
    ensures j == k
  {
    var x := SuffixName(base, j);
    var dj := Dec(j);
    var dk := Dec(k);
    assert |dj| == |dk|;
    assert x[|base| + 1..|base| + 1 + |dj|] == dj;
    assert SuffixName(base, k)[|base| + 1..|base| + 1 + |dk|] == dk;
    DecInjective(j, k);
  }

  /**
   * If the names for counters 1 .. c-1 all exist, then c-1 distinct names
   * sit in the directory, so c can exceed the directory's size by at most one.
   */
  lemma {:induction false} SuffixesBounded(base: string, dir: set<string>, c: nat)
    requires forall j :: 1 <= j < c ==> SuffixName(base, j) in dir
    ensures c <= |dir| + 1
  {
    if c > 1 {
      var last := SuffixName(base, c - 1);
      var rest := dir - {last};
      forall j | 1 <= j < c - 1
        ensures SuffixName(base, j) in rest
      {
        if SuffixName(base, j) == last {
          SuffixNameInjective(base, j, c - 1);
        }
      }
      SuffixesBounded(base, rest, c - 1);
    }
  }

  /** The least counter from `k` on whose suffix name is free, given that the ones below `k` are taken. */
  function FreeSuffixFrom(base: string, dir: set<string>, k: nat): (r: nat)
    requires 1 <= k <= |dir| + 1
    requires forall j :: 1 <= j < k ==> SuffixName(base, j) in dir
    ensures k <= r <= |dir| + 1
    ensures SuffixName(base, r) !in dir
    ensures forall j :: 1 <= j < r ==> SuffixName(base, j) in dir
    decreases |dir| + 1 - k
  {
    if SuffixName(base, k) !in dir then k
    else
      SuffixesBounded(base, dir, k + 1);
      FreeSuffixFrom(base, dir, k + 1)
  }

  /** The least counter k >= 1 for which `f"{base}_{k}.pdf"` is not in the directory. */
  function FreeSuffix(base: string, dir: set<string>): (k: nat)
    ensures 1 <= k <= |dir| + 1
    ensures SuffixName(base, k) !in dir
    ensures forall j :: 1 <= j < k ==> SuffixName(base, j) in dir
  {
    FreeSuffixFrom(base, dir, 1)
  }

  /**
   * The collision loop of both scripts: starting from a candidate that
   * exists, try `base_1.pdf`, `base_2.pdf`, ... until one does not exist.
   */
  method NextFreeName(candidate: string, base: string, dir: set<string>) returns (name: string)
    requires candidate in dir
    ensures name == SuffixName(base, FreeSuffix(base, dir))
    ensures name !in dir
  {
    name := candidate;
    var counter: nat := 1;
    while name in dir
      invariant counter >= 1
      invariant name == if counter == 1 then candidate else SuffixName(base, counter - 1)
      invariant forall j :: 1 <= j < counter - 1 ==> SuffixName(base, j) in dir
      decreases |dir| + 2 - counter
    {
      SuffixesBounded(base, dir, counter);
      name := SuffixName(base, counter);
      counter := counter + 1;
    }
    assert counter > 1;
  }

  /** The part of a suffix name after its base, `_k.pdf`, holds no reserved character. */
  lemma SuffixTailAvoids(k: nat)
    ensures NoneOf("_" + Dec(k) + Extension, Reserved)
  {
    var d := Dec(k);
    ClassAvoidsReserved(d, Digit);
    assert NoneOf("_", Reserved) && NoneOf(Extension, Reserved);
    NoneOfConcat("_", d, Reserved);
    NoneOfConcat("_" + d, Extension, Reserved);
  }

  /** Sanitising a suffix name only touches its base. */
  lemma SanitisedSuffixName(base: string, k: nat)
    ensures RemoveReserved(SuffixName(base, k)) == SuffixName(RemoveReserved(base), k)
  {
    var tail := "_" + Dec(k) + Extension;
    assert SuffixName(base, k) == base + tail;
    WithoutConcat(base, tail, Reserved);
    SuffixTailAvoids(k);
    WithoutIdentity(tail, Reserved);
    assert SuffixName(RemoveReserved(base), k) == RemoveReserved(base) + tail;
  }

  /** A suffix name holds a reserved character only where its base does. */
  lemma SuffixNameAvoids(base: string, k: nat)
    requires NoneOf(base, Reserved)
    ensures NoneOf(SuffixName(base, k), Reserved)
  {
    var tail := "_" + Dec(k) + Extension;
    assert SuffixName(base, k) == base + tail;
    SuffixTailAvoids(k);
    NoneOfConcat(base, tail, Reserved);
  }

  /** No character class of the patterns contains a reserved character. */
  lemma ClassAvoidsReserved(s: string, k: CharClass)
    requires AllIn(s, k)
    ensures NoneOf(s, Reserved)
  {
  }

  /** The listing holds distinct names that are all in the folder, as `glob` returns them. */
  predicate Listing(dir0: set<string>, files: seq<string>) {
    (forall i :: 0 <= i < |files| ==> files[i] in dir0)
    && (forall i, j :: 0 <= i < j < |files| ==> files[i] != files[j])
  }

  /**
   * Moving `file` to a name that is free or its own keeps the folder's
   * size and every other file.
   */
  lemma MoveKeeps(dir: set<string>, file: string, target: string, others: seq<string>)
    requires file in dir && (target !in dir || target == file)
    requires forall j :: 0 <= j < |others| ==> others[j] in dir && others[j] != file
    ensures |dir - {file} + {target}| == |dir|
    ensures forall j :: 0 <= j < |others| ==> others[j] in dir - {file} + {target}
  {
    assert |dir - {file}| == |dir| - 1;
  }

  /** `s.rfind(c)`: the last position of `c` in `s`, or -1. */
  function RFind(s: string, c: char): (r: int)
    ensures -1 <= r < |s|
    ensures r >= 0 ==> s[r] == c
    ensures forall m :: r < m < |s| ==> s[m] != c
  {
    if s == [] then -1
    else if s[|s| - 1] == c then |s| - 1
    else RFind(s[..|s| - 1], c)
  }

  /** `PurePath(name).stem`: the name without its last suffix, if it has one. */
  function Stem(name: string): (r: string)
    ensures Extension[0] !in name ==> r == name
  {
    var i := RFind(name, '.');
    if 0 < i < |name| - 1 then name[..i] else name
  }

  /** For a name `x.pdf` with a non-empty `x`, the stem is `x`. */
  lemma StemOfPdf(x: string)
    requires x != []
    ensures Stem(x + Extension) == x
  {
    var name := x + Extension;
    assert name[|x|] == '.' && name[|x| + 1..] == "pdf";
    assert RFind(name, '.') == |x|;
    assert name[..|x|] == x;
  }
}

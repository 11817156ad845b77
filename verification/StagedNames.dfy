/** Which file names next to a database the start-up sweep takes for staged restores. */
module StagedNames {

  const MIDDLE := ".restoring-"

  /** The staged file itself and the sidecars SQLite may leave beside it. */
  const SUFFIXES := ["", "-journal", "-wal", "-shm"]

  predicate IsHexDigit(c: char) {
    '0' <= c <= '9' || 'a' <= c <= 'f'
  }

  predicate ValidRef(ref: string) {
    |ref| == 16 && forall c <- ref :: IsHexDigit(c)
  }

  function StagedName(base: string, ref: string): string {
    base + MIDDLE + ref
  }

  /** `name` is the staged file of restore `ref` of the database `base`, or a sidecar of it. */
  predicate Reads(name: string, base: string, ref: string, suffix: string) {
    ValidRef(ref) && suffix in SUFFIXES && name == StagedName(base, ref) + suffix
  }

  ghost predicate IsStaged(name: string, base: string) {
    exists ref, suffix :: Reads(name, base, ref, suffix)
  }

  /** Spelled out: the base, the middle, sixteen lower-case hexadecimal digits, and at most one of three endings. */
  lemma StagedNameSpelledOut(name: string, base: string)
    ensures IsStaged(name, base) <==>
              exists ref: string :: |ref| == 16 && (forall c <- ref :: c in "0123456789abcdef") &&
                (|| name == base + ".restoring-" + ref
                 || name == base + ".restoring-" + ref + "-journal"
                 || name == base + ".restoring-" + ref + "-wal"
                 || name == base + ".restoring-" + ref + "-shm")
  {
    forall c ensures IsHexDigit(c) <==> c in "0123456789abcdef" {
      HexDigitSpelledOut(c);
    }
    if IsStaged(name, base) {
      var ref, suffix :| Reads(name, base, ref, suffix);
      assert StagedName(base, ref) + "" == StagedName(base, ref);
      assert suffix == "" || suffix == "-journal" || suffix == "-wal" || suffix == "-shm";
    }
    if ref: string :| |ref| == 16 && (forall c <- ref :: c in "0123456789abcdef") &&
                      (name == base + ".restoring-" + ref || name == base + ".restoring-" + ref + "-journal" ||
                       name == base + ".restoring-" + ref + "-wal" || name == base + ".restoring-" + ref + "-shm") {
      assert ValidRef(ref);
      assert StagedName(base, ref) + "" == StagedName(base, ref);
      assert SUFFIXES[0] == "" && SUFFIXES[1] == "-journal" && SUFFIXES[2] == "-wal" && SUFFIXES[3] == "-shm";
      assert Reads(name, base, ref, "") || Reads(name, base, ref, "-journal") || Reads(name, base, ref, "-wal") || Reads(name, base, ref, "-shm");
    }
  }

  lemma HexDigitSpelledOut(c: char)
    ensures IsHexDigit(c) <==> c in "0123456789abcdef"
  {
    var digits := "0123456789abcdef";
    assert |digits| == 16;
    if IsHexDigit(c) {
      var i := if c <= '9' then c as int - '0' as int else c as int - 'a' as int + 10;
      assert digits[i] == c;
    }
  }

  /** The text after the prefix, cut at each suffix in turn. */
  method IsStagedRestoreName(name: string, base: string) returns (ok: bool)
    ensures ok <==> IsStaged(name, base)
  {
    var prefix := base + MIDDLE;
    StagedHasPrefix(name, base);
    if !(prefix <= name) {
      return false;
    }
    var rest := name[|prefix|..];
    for i := 0 to |SUFFIXES|
      invariant forall j, ref :: 0 <= j < i ==> !Reads(name, base, ref, SUFFIXES[j])
    {
      var suffix := SUFFIXES[i];
      if |suffix| <= |rest| && rest[|rest| - |suffix|..] == suffix && ValidRef(rest[..|rest| - |suffix|]) {
        assert name == prefix + rest;
        assert rest == rest[..|rest| - |suffix|] + suffix;
        assert Reads(name, base, rest[..|rest| - |suffix|], suffix);
        return true;
      }
      OnlyTheCutFits(name, base, suffix);
    }
    ok := false;
  }

  lemma StagedHasPrefix(name: string, base: string)
    ensures IsStaged(name, base) ==> base + MIDDLE <= name
  {
  }

  /** If any reference fits this suffix, it is the text that cutting leaves. */
  lemma OnlyTheCutFits(name: string, base: string, suffix: string)
    requires base + MIDDLE <= name
    ensures
      var rest := name[|base + MIDDLE|..];
      forall ref :: Reads(name, base, ref, suffix) ==>
        |suffix| <= |rest| && rest[|rest| - |suffix|..] == suffix && rest[..|rest| - |suffix|] == ref
  {
    forall ref | Reads(name, base, ref, suffix)
      ensures
        var rest := name[|base + MIDDLE|..];
        |suffix| <= |rest| && rest[|rest| - |suffix|..] == suffix && rest[..|rest| - |suffix|] == ref
    {
      CutsBack(name, base, ref, suffix);
    }
  }

  lemma CutsBack(name: string, base: string, ref: string, suffix: string)
    requires Reads(name, base, ref, suffix)
    ensures
      var rest := name[|base + MIDDLE|..];
      |suffix| <= |rest| && rest[|rest| - |suffix|..] == suffix && rest[..|rest| - |suffix|] == ref
  {
    assert name == (base + MIDDLE) + (ref + suffix);
    assert name[|base + MIDDLE|..] == ref + suffix;
  }

  lemma NoDotAfterMiddle(ref: string, suffix: string)
    requires ValidRef(ref) && suffix in SUFFIXES
    ensures '.' !in ref + suffix
  {
  }

  lemma NoDotPastBase(a: string, t: string, i: nat)
    requires '.' !in t && |a| < i < |a + (MIDDLE + t)|
    ensures (a + (MIDDLE + t))[i] != '.'
  {
    var k := i - |a|;
    assert (a + (MIDDLE + t))[i] == (MIDDLE + t)[k];
    if k < |MIDDLE| {
      assert (MIDDLE + t)[k] == MIDDLE[k];
    } else {
      assert (MIDDLE + t)[k] == t[k - |MIDDLE|];
    }
  }

  /** The last dot of a name ends the base: texts without a dot cannot shift it. */
  lemma SameTail(a: string, t: string, b: string, u: string)
    requires a + (MIDDLE + t) == b + (MIDDLE + u) && '.' !in t && '.' !in u
    ensures |a| >= |b|
  {
    assert (b + (MIDDLE + u))[|b|] == '.';
    if |a| < |b| {
      NoDotPastBase(a, t, |b|);
    }
  }

  lemma SplitAt(x: string, y: string, v: string, w: string)
    requires x + y == v + w && |x| == |v|
    ensures x == v && y == w
  {
    assert x == (x + y)[..|x|] && y == (x + y)[|x|..];
    assert v == (v + w)[..|v|] && w == (v + w)[|v|..];
  }

  /**
   A name has one reading only: the sweep of one database never takes a file of another
   one, whatever the two are called, nor one restore's file for another's.
   */
  lemma OneReading(name: string, a: string, r: string, s: string, b: string, q: string, t: string)
    requires Reads(name, a, r, s) && Reads(name, b, q, t)
    ensures a == b && r == q && s == t
  {
    NoDotAfterMiddle(r, s);
    NoDotAfterMiddle(q, t);
    assert name == a + (MIDDLE + (r + s)) && name == b + (MIDDLE + (q + t));
    SameTail(a, r + s, b, q + t);
    SameTail(b, q + t, a, r + s);
    SplitAt(a, MIDDLE + (r + s), b, MIDDLE + (q + t));
    SplitAt(MIDDLE, r + s, MIDDLE, q + t);
    SplitAt(r, s, q, t);
  }

  // ---------------------------------------------------------------- the sweep

  /** What a sweep of this database takes away; directories are never touched. */
  ghost predicate Taken(name: string, base: string, dirs: set<string>, undeletable: set<string>) {
    IsStaged(name, base) && name !in dirs && name !in undeletable
  }

  ghost predicate Stuck(name: string, base: string, dirs: set<string>, undeletable: set<string>) {
    IsStaged(name, base) && name !in dirs && name in undeletable
  }

  /** Goes through the entries of the directory; a directory that cannot be listed is left alone. */
  method SweepStaged(files: set<string>, dirs: set<string>, base: string, listOk: bool, undeletable: set<string>)
      returns (left: set<string>, stuck: nat)
    ensures listOk ==> left == (set f | f in files && !Taken(f, base, dirs, undeletable))
    ensures listOk ==> stuck == |set f | f in files && Stuck(f, base, dirs, undeletable)|
    ensures !listOk ==> left == files && stuck == 0
  {
    left, stuck := files, 0;
    if !listOk {
      return;
    }
    var entries := files;
    ghost var held: set<string> := {};
    while entries != {}
      invariant entries <= files
      invariant left == set f | f in files && (f in entries || !Taken(f, base, dirs, undeletable))
      invariant held == (set f | f in files && f !in entries && Stuck(f, base, dirs, undeletable)) && stuck == |held|
      decreases entries
    {
      var f :| f in entries;
      entries := entries - {f};
      if f !in dirs {
        var staged := IsStagedRestoreName(f, base);
        if staged && f in undeletable {
          stuck := stuck + 1;
          held := held + {f};
        } else if staged {
          left := left - {f};
        }
      }
    }
    assert held == set f | f in files && Stuck(f, base, dirs, undeletable);
  }

  /**
   A sweep takes every file any restore of this database staged, and its sidecars, and
   no file any restore of another database staged.
   */
  lemma SweepTakesItsOwn(base: string, other: string, ref: string, suffix: string, dirs: set<string>, undeletable: set<string>)
    requires ValidRef(ref) && suffix in SUFFIXES
    ensures
      var name := StagedName(other, ref) + suffix;
      Taken(name, base, dirs, undeletable) <==> other == base && name !in dirs && name !in undeletable
  {
    var name := StagedName(other, ref) + suffix;
    assert Reads(name, other, ref, suffix);
    if IsStaged(name, base) {
      var r, s :| Reads(name, base, r, s);
      OneReading(name, base, r, s, other, ref, suffix);
    }
  }
}

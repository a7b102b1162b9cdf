/** app/services/file_service.py: moving a processed file into uploaded/ or
    uploadFailed/ without ever overwriting an earlier one. */
module FileService {
  import opened Text
  import opened Chunking

  /** A path as its components; the last one is the file name. */
  type Path = seq<string>

  const UPLOADED := "uploaded"
  const UPLOAD_FAILED := "uploadFailed"

  /** A file inside some directory whose name has none of the characters the
      superseded marker borrows from outside legal file names. */
  predicate Plain(p: Path) {
    |p| >= 2 && '<' !in p[|p| - 1]
  }

  function Name(p: Path): string
    requires |p| >= 2
  {
    p[|p| - 1]
  }

  function Parent(p: Path): Path
    requires |p| >= 2
  {
    p[..|p| - 1]
  }

  /** The file lies directly inside a folder called sub. */
  predicate InFolder(p: Path, sub: string) {
    |p| >= 2 && p[|p| - 2] == sub
  }

  predicate Intake(p: Path) {
    Plain(p) && !InFolder(p, UPLOADED) && !InFolder(p, UPLOAD_FAILED)
  }

  /** Where the name's suffix starts: the last dot, unless it opens or ends the name. */
  function DotIndex(name: string, i: nat): (d: nat)
    requires i <= |name|
    ensures d <= |name|
  {
    if i == 0 then |name|
    else if name[i - 1] == '.' then
      if 0 < i - 1 < |name| - 1 then i - 1 else |name|
    else DotIndex(name, i - 1)
  }

  function Stem(name: string): string {
    name[..DotIndex(name, |name|)]
  }

  function Suffix(name: string): string {
    name[DotIndex(name, |name|)..]
  }

  function Numbered(name: string, k: nat): string {
    Stem(name) + "_" + Dec(k) + Suffix(name)
  }

  /** Different counters give different names. */
  lemma NumberedInjective(name: string, j: nat, k: nat)
    requires Numbered(name, j) == Numbered(name, k)
    ensures j == k
  {
    var a, b := Stem(name) + "_", Suffix(name);
    assert Dec(j) == Numbered(name, j)[|a|..|Numbered(name, j)| - |b|];
    assert Dec(k) == Numbered(name, k)[|a|..|Numbered(name, k)| - |b|];
    DecInjective(j, k);
  }

  function InDir(dir: Path, name: string): Path {
    dir + [name]
  }

  /** The least counter from k on whose numbered name is free in dir. */
  ghost predicate LeastFree(files: map<Path, Bytes>, dir: Path, name: string, k: nat, n: nat) {
    && k <= n
    && InDir(dir, Numbered(name, n)) !in files
    && forall j :: k <= j < n ==> InDir(dir, Numbered(name, j)) in files
  }

  /** The path a move of src into sub takes: the plain name when free, else the first
      free numbered name from 2 on. */
  ghost predicate IsDestination(files: map<Path, Bytes>, src: Path, sub: string, dest: Path)
    requires |src| >= 2
  {
    var dir := Parent(src) + [sub];
    if InDir(dir, Name(src)) !in files then dest == InDir(dir, Name(src))
    else exists n :: LeastFree(files, dir, Name(src), 2, n) && dest == InDir(dir, Numbered(Name(src), n))
  }

  function Moved(files: map<Path, Bytes>, src: Path, dest: Path): map<Path, Bytes>
    requires src in files
  {
    (files - {src})[dest := files[src]]
  }

  /** Facts about a destination that every caller relies on. */
  lemma DestinationFacts(files: map<Path, Bytes>, src: Path, sub: string, dest: Path)
    requires Plain(src) && IsDestination(files, src, sub, dest)
    ensures dest !in files && Plain(dest) && |dest| == |src| + 1
    ensures InFolder(dest, sub) && dest[..|src| - 1] == Parent(src)
  {
  }

  lemma DestinationUnique(files: map<Path, Bytes>, src: Path, sub: string, d: Path, e: Path)
    requires |src| >= 2
    requires IsDestination(files, src, sub, d) && IsDestination(files, src, sub, e)
    ensures d == e
  {
  }

  // ---- conservation of what the folder tree holds ----

  ghost function ContentsOf(files: map<Path, Bytes>, ps: set<Path>): multiset<Bytes>
    requires ps <= files.Keys
    decreases ps
  {
    if ps == {} then multiset{}
    else
      var p :| p in ps;
      ContentsOf(files, ps - {p}) + multiset{files[p]}
  }

  /** The collection of file contents, whatever the files are called. */
  ghost function Contents(files: map<Path, Bytes>): multiset<Bytes> {
    ContentsOf(files, files.Keys)
  }

  lemma {:induction false} ContentsWithout(files: map<Path, Bytes>, ps: set<Path>, p: Path)
    requires ps <= files.Keys && p in ps
    ensures ContentsOf(files, ps) == ContentsOf(files, ps - {p}) + multiset{files[p]}
    decreases ps
  {
    var q :| q in ps && ContentsOf(files, ps) == ContentsOf(files, ps - {q}) + multiset{files[q]};
    if p != q {
      ContentsWithout(files, ps - {q}, p);
      ContentsWithout(files, ps - {p}, q);
      assert ps - {q} - {p} == ps - {p} - {q};
    }
  }

  lemma {:induction false} ContentsAgree(f: map<Path, Bytes>, g: map<Path, Bytes>, ps: set<Path>)
    requires ps <= f.Keys && ps <= g.Keys && forall p :: p in ps ==> f[p] == g[p]
    ensures ContentsOf(f, ps) == ContentsOf(g, ps)
    decreases ps
  {
    if ps != {} {
      var p :| p in ps;
      ContentsWithout(f, ps, p);
      ContentsWithout(g, ps, p);
      ContentsAgree(f, g, ps - {p});
    }
  }

  lemma MovedKeys(files: map<Path, Bytes>, src: Path, dest: Path)
    requires src in files && dest !in files
    ensures Moved(files, src, dest).Keys == files.Keys - {src} + {dest}
    ensures Moved(files, src, dest)[dest] == files[src]
    ensures forall p ::
              p in files && p != src ==> p in Moved(files, src, dest) && Moved(files, src, dest)[p] == files[p]
  {
  }

  /** A move changes no content and loses none. */
  lemma MoveConserves(files: map<Path, Bytes>, src: Path, dest: Path)
    requires src in files && dest !in files
    ensures Contents(Moved(files, src, dest)) == Contents(files)
    ensures Moved(files, src, dest).Keys == files.Keys - {src} + {dest}
    ensures forall p ::
              p in files && p != src ==> p in Moved(files, src, dest) && Moved(files, src, dest)[p] == files[p]
  {
    hide ContentsOf, Moved;
    var after := Moved(files, src, dest);
    var rest := files.Keys - {src};
    MovedKeys(files, src, dest);
    ContentsWithout(files, files.Keys, src);
    ContentsWithout(after, after.Keys, dest);
    assert after.Keys - {dest} == rest;
    ContentsAgree(files, after, rest);
  }

  /** Names still occupied at or above the counter: what the search loop uses up. */
  ghost function OccupiedFrom(files: map<Path, Bytes>, dir: Path, name: string, k: nat): set<Path> {
    set p | p in files && exists n :: n >= k && p == InDir(dir, Numbered(name, n))
  }

  lemma OccupiedShrinks(files: map<Path, Bytes>, dir: Path, name: string, k: nat)
    requires InDir(dir, Numbered(name, k)) in files
    ensures OccupiedFrom(files, dir, name, k + 1) < OccupiedFrom(files, dir, name, k)
  {
    var here := InDir(dir, Numbered(name, k));
    assert here in OccupiedFrom(files, dir, name, k);
    forall n | n >= k + 1 && here == InDir(dir, Numbered(name, n)) ensures false {
      assert Numbered(name, k) == here[|dir|] == Numbered(name, n);
      NumberedInjective(name, k, n);
    }
    assert here !in OccupiedFrom(files, dir, name, k + 1);
  }

  class Disk {
    var files: map<Path, Bytes>

    constructor ()
      ensures files == map[]
    {
      files := map[];
    }

    /** Terminates on every finite folder, lands on a free name, moves exactly one file. */
    method MoveFile(src: Path, sub: string) returns (dest: Path)
      requires Plain(src) && src in files
      modifies this
      ensures IsDestination(old(files), src, sub, dest)
      ensures dest !in old(files) && files == Moved(old(files), src, dest)
      ensures Contents(files) == Contents(old(files))
    {
      var dir, occupied := Parent(src) + [sub], files;
      dest := InDir(dir, Name(src));
      if dest in occupied {
        var counter: nat := 2;
        while dest in occupied
          invariant files == occupied
          invariant counter >= 2
          invariant counter == 2 ==> dest == InDir(dir, Name(src))
          invariant counter > 2 ==> dest == InDir(dir, Numbered(Name(src), counter - 1))
          invariant forall j :: 2 <= j < counter - 1 ==> InDir(dir, Numbered(Name(src), j)) in occupied
          decreases counter == 2, OccupiedFrom(occupied, dir, Name(src), counter - 1)
        {
          if counter > 2 {
            OccupiedShrinks(occupied, dir, Name(src), counter - 1);
          }
          dest := InDir(dir, Numbered(Name(src), counter));
          counter := counter + 1;
        }
        assert LeastFree(occupied, dir, Name(src), 2, counter - 1);
      }
      MoveConserves(files, src, dest);
      files := Moved(files, src, dest);
    }

    method MoveToUploaded(src: Path) returns (dest: Path)
      requires Plain(src) && src in files
      modifies this
      ensures IsDestination(old(files), src, UPLOADED, dest)
      ensures dest !in old(files) && files == Moved(old(files), src, dest)
      ensures Contents(files) == Contents(old(files))
    {
      dest := MoveFile(src, UPLOADED);
    }

    method MoveToFailed(src: Path) returns (dest: Path)
      requires Plain(src) && src in files
      modifies this
      ensures IsDestination(old(files), src, UPLOAD_FAILED, dest)
      ensures dest !in old(files) && files == Moved(old(files), src, dest)
      ensures Contents(files) == Contents(old(files))
    {
      dest := MoveFile(src, UPLOAD_FAILED);
    }
  }
}

/** What one invocation does to the world, in order: directories made, files
    written, trees removed and processes spawned, and what that does to a
    filesystem seen as a map from paths to entries. */
module Effects {
  import opened Process

  type Path = string

  datatype Entry = Dir | File(contents: string)

  type FileSystem = map<Path, Entry>

  datatype Event =
    | MadeDir(path: Path)
    | Wrote(path: Path, text: string)
    | Removed(path: Path)
    | Spawned(command: Command)

  /** A stage's outcome record together with everything it did to get it. */
  datatype Session = Session(result: ExecResult, events: seq<Event>)

  /** `os.path.join` of a directory name returned by `mkdtemp` and a plain file name. */
  function Join(dir: Path, name: string): Path {
    dir + "/" + name
  }

  /** `p` is `dir` itself or lies somewhere below it. */
  predicate Under(p: Path, dir: Path) {
    p == dir || dir + "/" <= p
  }

  /** Nothing exists at or below `dir`: what `mkdtemp` guarantees of the name it picks. */
  predicate FreshDir(fs: FileSystem, dir: Path) {
    forall p | p in fs :: !Under(p, dir)
  }

  /** The event touches the filesystem only at or below `dir`. */
  predicate Inside(e: Event, dir: Path) {
    e.Spawned? || Under(e.path, dir)
  }

  /** The effect of one event on the filesystem; spawned processes are not
      modelled as touching it. */
  function Apply(fs: FileSystem, e: Event): FileSystem {
    match e
    case MadeDir(p) => fs[p := Dir]
    case Wrote(p, text) => fs[p := File(text)]
    case Removed(dir) => map p | p in fs && !Under(p, dir) :: fs[p]
    case Spawned(_) => fs
  }

  /** An event changes only the entries at or below its own path, and a
      removal leaves nothing there. */
  lemma ApplyFrame(fs: FileSystem, e: Event)
    ensures e.Spawned? ==> Apply(fs, e) == fs
    ensures !e.Spawned? ==>
              forall p | !Under(p, e.path) ::
                && (p in Apply(fs, e) <==> p in fs)
                && (p in fs ==> Apply(fs, e)[p] == fs[p])
    ensures e.Removed? ==> forall p | Under(p, e.path) :: p !in Apply(fs, e)
  {
  }

  function ApplyAll(fs: FileSystem, es: seq<Event>): FileSystem
    decreases |es|
  {
    if es == [] then fs else ApplyAll(Apply(fs, es[0]), es[1..])
  }

  lemma ApplyAllSingle(fs: FileSystem, e: Event)
    ensures ApplyAll(fs, [e]) == Apply(fs, e)
  {
    assert [e][1..] == [];
  }

  /** The processes spawned, in the order they were spawned. */
  function Spawns(es: seq<Event>): (cs: seq<Command>)
    ensures |cs| <= |es|
  {
    if es == [] then [] else (if es[0].Spawned? then [es[0].command] else []) + Spawns(es[1..])
  }

  /** A command is among the spawned ones exactly when a Spawned event for it occurs. */
  lemma {:induction false} SpawnsMember(es: seq<Event>, c: Command)
    ensures c in Spawns(es) <==> Spawned(c) in es
  {
    if es != [] {
      assert es == [es[0]] + es[1..];
      SpawnsMember(es[1..], c);
    }
  }

  lemma SpawnsOf(e: Event)
    ensures Spawns([e]) == if e.Spawned? then [e.command] else []
  {
    assert [e][1..] == [];
  }

  lemma {:induction false} SpawnsAppend(a: seq<Event>, b: seq<Event>)
    ensures Spawns(a + b) == Spawns(a) + Spawns(b)
  {
    if a == [] {
      assert a + b == b;
    } else {
      assert (a + b)[0] == a[0] && (a + b)[1..] == a[1..] + b;
      SpawnsAppend(a[1..], b);
    }
  }

  lemma {:induction false} ApplyAllAppend(fs: FileSystem, a: seq<Event>, b: seq<Event>)
    ensures ApplyAll(fs, a + b) == ApplyAll(ApplyAll(fs, a), b)
    decreases |a|
  {
    if a == [] {
      assert a + b == b;
    } else {
      assert (a + b)[0] == a[0] && (a + b)[1..] == a[1..] + b;
      ApplyAllAppend(Apply(fs, a[0]), a[1..], b);
    }
  }

  lemma UnderTransitive(p: Path, q: Path, dir: Path)
    requires Under(p, q) && Under(q, dir)
    ensures Under(p, dir)
  {
    if p != q && q != dir {
      assert (dir + "/") == q[..|dir| + 1] == p[..|dir| + 1];
    }
  }

  /** Events that stay inside `dir` leave everything outside `dir` as it was. */
  lemma {:induction false} ApplyAllOutside(fs: FileSystem, es: seq<Event>, dir: Path)
    requires forall e | e in es :: Inside(e, dir)
    ensures forall p | !Under(p, dir) ::
              && (p in ApplyAll(fs, es) <==> p in fs)
              && (p in fs ==> ApplyAll(fs, es)[p] == fs[p])
    decreases |es|
  {
    if es != [] {
      var e := es[0];
      assert Inside(e, dir);
      var next := Apply(fs, e);
      ApplyFrame(fs, e);
      forall p | !Under(p, dir)
        ensures (p in next <==> p in fs) && (p in fs ==> next[p] == fs[p])
      {
        if !e.Spawned? && Under(p, e.path) {
          UnderTransitive(p, e.path, dir);
        }
      }
      assert forall e' | e' in es[1..] :: e' in es;
      ApplyAllOutside(next, es[1..], dir);
    }
  }
}

/** The part of the operating system the theme changer touches: a table of
    filesystem entries (regular files and symbolic links), path resolution
    the way pathlib performs it, and the external commands the program runs. */
module Host {

  /** An absolute path, as the sequence of its components. */
  type Path = seq<string>

  /** A filesystem entry: a regular file, or a symbolic link holding its target. */
  datatype Node = File | Link(target: Path)

  type FileTable = map<Path, Node>

  /** The argument vector of an external command. */
  type Command = seq<string>

  datatype Option<T> = None | Some(value: T)

  datatype Error =
    | UsageError(action: string)
    | ConfigInvalid(attribute: string)
    | ThemeNotFound(theme: string)
    | FileNotFound(path: Path)
    | FileExists(path: Path)
    | SymlinkLoop(path: Path)
    | TypeError

  datatype Result<T> = Ok(value: T) | Err(error: Error) {
    predicate IsFailure() { Err? }

    function PropagateFailure<U>(): Result<U>
      requires Err?
    {
      Err(error)
    }

    function Extract(): T
      requires Ok?
    {
      value
    }
  }

  datatype Outcome = Done | Failed(error: Error)

  /** What the program can observe of the machine: its files and links, and
      the external commands it has run so far. */
  datatype State = State(links: FileTable, calls: seq<Command>)

  /** The last component of a path (pathlib's `name`). */
  function Name(p: Path): string {
    if p == [] then "" else p[|p| - 1]
  }

  /** The index of the last '.' in `s`, or -1 when there is none. */
  function LastDot(s: string): (r: int)
    ensures -1 <= r < |s|
    ensures r >= 0 ==> s[r] == '.'
    ensures forall k :: r < k < |s| ==> s[k] != '.'
  {
    if s == [] then -1
    else if s[|s| - 1] == '.' then |s| - 1
    else LastDot(s[..|s| - 1])
  }

  /** pathlib's `stem`: the name without its final suffix, where a suffix
      starts at the last '.' that is neither the first nor the last character. */
  function Stem(name: string): string {
    var i := LastDot(name);
    if 0 < i < |name| - 1 then name[..i] else name
  }

  /** Appending ".conf" to a non-empty name and taking the stem gives the name
      back; for the empty name the stem of ".conf" is ".conf" itself. */
  lemma StemOfConf(n: string)
    ensures Stem(n + ".conf") == (if n == "" then ".conf" else n)
  {
    var s := n + ".conf";
    assert s[|n|] == '.';
    assert forall k :: |n| < k < |s| ==> s[k] != '.';
    assert LastDot(s) == |n|;
    assert s[..|n|] == n;
  }

  /** Follows symbolic links from `p` until it reaches a path that is not a
      link (a regular file, or a path with no entry at all, which stands for
      itself). `seen` holds the links already followed: meeting one of them
      again is a symlink loop, reported as None. */
  function Follow(fs: FileTable, p: Path, seen: set<Path>): Option<Path>
    decreases fs.Keys - seen
  {
    if p !in fs || fs[p].File? then Some(p)
    else if p in seen then None
    else Follow(fs, fs[p].target, seen + {p})
  }

  /** Where `p` leads, or None when its chain of links loops. */
  function Target(fs: FileTable, p: Path): Option<Path> {
    Follow(fs, p, {})
  }

  /** pathlib's non-strict `resolve()`, following only links stored under the
      whole path and none in its directory components: a loop raises an error. */
  function Resolved(fs: FileTable, p: Path): Result<Path> {
    match Target(fs, p)
    case Some(q) => Ok(q)
    case None => Err(SymlinkLoop(p))
  }

  /** pathlib's `exists()`: the path leads to an existing regular file; a
      dangling link and a symlink loop both answer false. */
  predicate Present(fs: FileTable, p: Path) {
    Target(fs, p).Some? && Target(fs, p).value in fs
  }

  /** `unlink()` followed by `symlink_to(target)`: the entry must exist. */
  function Relinked(fs: FileTable, link: Path, target: Path): Result<FileTable> {
    if link !in fs then Err(FileNotFound(link)) else Ok(fs[link := Link(target)])
  }

  /** A resolved path is never itself a link. */
  lemma {:induction false} FollowEndsOffLinks(fs: FileTable, p: Path, seen: set<Path>)
    requires Follow(fs, p, seen).Some?
    ensures var q := Follow(fs, p, seen).value; q !in fs || fs[q].File?
    decreases fs.Keys - seen
  {
    if p in fs && fs[p].Link? && p !in seen {
      FollowEndsOffLinks(fs, fs[p].target, seen + {p});
    }
  }

  /** The chain of links followed from `p` never passes through `xs`. */
  ghost predicate Avoids(fs: FileTable, p: Path, seen: set<Path>, xs: set<Path>)
    decreases fs.Keys - seen
  {
    p !in xs &&
    (p in fs && fs[p].Link? && p !in seen ==> Avoids(fs, fs[p].target, seen + {p}, xs))
  }

  /** Changing an entry the chain from `p` never visits changes nothing about
      where `p` leads, even when that entry is counted as already seen. */
  lemma {:induction false} Detour(fs: FileTable, p: Path, seen: set<Path>, xs: set<Path>, x: Path, n: Node)
    requires x in xs && Avoids(fs, p, seen, xs)
    ensures Follow(fs[x := n], p, seen + xs) == Follow(fs, p, seen)
    decreases fs.Keys - seen
  {
    if p in fs && fs[p].Link? && p !in seen {
      Detour(fs, fs[p].target, seen + {p}, xs, x, n);
      assert seen + {p} + xs == seen + xs + {p};
    }
  }

  /** When the chain from `p` does reach the link `x`, and `x` is already
      counted as seen, following from `p` ends in a loop. */
  lemma {:induction false} Captured(fs: FileTable, p: Path, seen: set<Path>, x: Path, n: Node)
    requires n.Link? && !Avoids(fs, p, seen, {x})
    ensures Follow(fs[x := n], p, seen + {x}) == None
    decreases fs.Keys - seen
  {
    if p != x {
      Captured(fs, fs[p].target, seen + {p}, x, n);
      assert seen + {p} + {x} == seen + {x} + {p};
    }
  }

  /** Pointing `x` at `y` makes `x` lead where `y` led, unless the chain
      from `y` came back through `x`, which is then a loop. */
  lemma Redirect(fs: FileTable, x: Path, y: Path)
    ensures Avoids(fs, y, {}, {x}) ==> Target(fs[x := Link(y)], x) == Target(fs, y)
    ensures !Avoids(fs, y, {}, {x}) ==> Target(fs[x := Link(y)], x) == None
  {
    var fs' := fs[x := Link(y)];
    assert {} + {x} == {x};
    assert Target(fs', x) == Follow(fs', y, {} + {x});
    if Avoids(fs, y, {}, {x}) {
      Detour(fs, y, {}, {x}, x, Link(y));
      assert {} + {x} == {x};
    } else {
      Captured(fs, y, {}, x, Link(y));
      assert {} + {x} == {x};
    }
  }

  /** A chain that gets through without a loop when more links count as
      seen gets through the same way when fewer do. */
  lemma {:induction false} SeenShrink(fs: FileTable, p: Path, smaller: set<Path>, larger: set<Path>)
    requires smaller <= larger && Follow(fs, p, larger).Some?
    ensures Follow(fs, p, smaller) == Follow(fs, p, larger)
    decreases fs.Keys - larger
  {
    if p in fs && fs[p].Link? {
      SeenShrink(fs, fs[p].target, smaller + {p}, larger + {p});
    }
  }

  /** A chain that passes through `x` meets `x` with some set of links seen. */
  lemma {:induction false} PassThrough(fs: FileTable, p: Path, seen: set<Path>, x: Path) returns (later: set<Path>)
    requires !Avoids(fs, p, seen, {x}) && Follow(fs, p, seen).Some?
    ensures seen <= later && Follow(fs, p, seen) == Follow(fs, x, later)
    decreases fs.Keys - seen
  {
    if p == x {
      later := seen;
    } else {
      later := PassThrough(fs, fs[p].target, seen + {p}, x);
    }
  }

  /** A path whose chain of links passes through `x` leads where `x` leads. */
  lemma ReachesThrough(fs: FileTable, p: Path, x: Path)
    requires Target(fs, p).Some? && !Avoids(fs, p, {}, {x})
    ensures Target(fs, p) == Target(fs, x)
  {
    var later := PassThrough(fs, p, {}, x);
    SeenShrink(fs, x, {}, later);
  }

  /** The running machine: its file table and the log of external commands. */
  class Machine {
    var links: FileTable
    var calls: seq<Command>

    constructor (links: FileTable)
      ensures this.links == links && calls == []
    {
      this.links := links;
      calls := [];
    }

    function Snapshot(): State
      reads this
    {
      State(links, calls)
    }

    /** `Path.unlink()`: removes the entry, or fails when there is none. */
    method Unlink(p: Path) returns (out: Outcome)
      modifies this`links
      ensures p in old(links) ==> out == Done && links == old(links) - {p}
      ensures p !in old(links) ==> out == Failed(FileNotFound(p)) && links == old(links)
    {
      if p in links {
        links := links - {p};
        out := Done;
      } else {
        out := Failed(FileNotFound(p));
      }
    }

    /** `Path.symlink_to(target)`: creates a link, or fails when the path is taken. */
    method SymlinkTo(p: Path, target: Path) returns (out: Outcome)
      modifies this`links
      ensures p in old(links) ==> out == Failed(FileExists(p)) && links == old(links)
      ensures p !in old(links) ==> out == Done && links == old(links)[p := Link(target)]
    {
      if p in links {
        out := Failed(FileExists(p));
      } else {
        links := links[p := Link(target)];
        out := Done;
      }
    }

    /** Unlink `link`, then make it a link to `target`. */
    method Relink(link: Path, target: Path) returns (out: Outcome)
      modifies this`links
      ensures match Relinked(old(links), link, target)
              case Ok(fs) => out == Done && links == fs
              case Err(e) => out == Failed(e) && links == old(links)
    {
      out := Unlink(link);
      if out.Done? {
        out := SymlinkTo(link, target);
        assert old(links) - {link} + map[link := Link(target)] == old(links)[link := Link(target)];
      }
    }

    /** `Path.resolve()`: follow links, keeping the set of links seen. */
    method Resolve(p: Path) returns (r: Result<Path>)
      ensures r == Resolved(links, p)
      ensures r.Ok? ==> r.value !in links || links[r.value].File?
    {
      var cur, seen := p, {};
      while cur in links && links[cur].Link?
        invariant Follow(links, cur, seen) == Target(links, p)
        decreases links.Keys - seen
      {
        if cur in seen {
          return Err(SymlinkLoop(p));
        }
        seen := seen + {cur};
        cur := links[cur].target;
      }
      r := Ok(cur);
    }

    /** `Path.exists()`. */
    method Exists(p: Path) returns (b: bool)
      ensures b == Present(links, p)
    {
      var r := Resolve(p);
      b := r.Ok? && r.value in links;
    }

    /** `subprocess.call(cmd)`: the command is recorded, its effect is not modelled. */
    method Call(cmd: Command)
      modifies this`calls
      ensures calls == old(calls) + [cmd]
    {
      calls := calls + [cmd];
    }
  }
}

/** SFTP's REALPATH (`sftp.rs`, `realpath` and `pop_component`) over a fixed
file tree, on bytes. */
module RealPath {
  import opened Wire

  const SYMLOOP_MAX: nat := 32
  const SLASH: Byte := 47
  const DOT: Byte := 46

  datatype Node = Plain | Link(target: Bytes) | Missing | Faulty(error: string)

  /** What `symlink_metadata` and `read_link` say of each path. */
  type Tree = Bytes -> Node

  datatype Outcome = Done(path: Bytes, links: nat) | Failed(error: string)

  // ---- the algorithm ----

  function FirstSlash(b: Bytes): (i: nat)
    ensures i <= |b| && (i < |b| ==> b[i] == SLASH) && forall k :: 0 <= k < i ==> b[k] != SLASH
  {
    if b == [] || b[0] == SLASH then 0
    else
      var i := FirstSlash(b[1..]);
      assert forall k :: 1 <= k < i + 1 ==> b[k] == b[1..][k - 1];
      1 + i
  }

  function LastSlash(b: Bytes): (i: int)
    ensures -1 <= i < |b| && (i >= 0 ==> b[i] == SLASH) && forall k :: i < k < |b| ==> b[k] != SLASH
  {
    if b == [] then -1 else if b[|b| - 1] == SLASH then |b| - 1 else LastSlash(b[..|b| - 1])
  }

  predicate EndsInSlash(b: Bytes) { b != [] && b[|b| - 1] == SLASH }

  function Slashed(b: Bytes): Bytes { if EndsInSlash(b) then b else b + [SLASH] }

  /** `pop_component`. */
  function Pop(b: Bytes): Bytes {
    if |b| <= 1 then b
    else
      var end := if EndsInSlash(b) then |b| - 1 else |b|;
      var cut := LastSlash(b[..end]) + 1;
      b[..if cut < 1 then 1 else cut]
  }

  function Trimmed(b: Bytes): Bytes { if |b| > 1 && EndsInSlash(b) then b[..|b| - 1] else b }

  predicate IsLast(left: Bytes) { FirstSlash(left) == |left| }

  function Token(left: Bytes): Bytes { left[..FirstSlash(left)] }

  function After(left: Bytes): (r: Bytes)
    ensures left != [] ==> |r| < |left|
  {
    if IsLast(left) then [] else left[FirstSlash(left) + 1..]
  }

  /** What is left to resolve once a link is followed. */
  function Follow(target: Bytes, left: Bytes): Bytes { if IsLast(left) then target else Slashed(target) + After(left) }

  datatype Move = Stop(outcome: Outcome) | Onward(resolved: Bytes, left: Bytes, links: nat)

  /** A component that is neither empty nor dots, at `full`. */
  function Enter(fs: Tree, full: Bytes, left: Bytes, links: nat): Move {
    match fs(full)
    case Missing => Stop(if IsLast(left) then Done(Trimmed(full), links) else Failed("not found"))
    case Faulty(e) => Stop(Failed(e))
    case Plain => Onward(full, After(left), links)
    case Link(target) =>
      if links >= SYMLOOP_MAX then Stop(Failed("too many symlinks"))
      else
        var up := if target != [] && target[0] == SLASH then full[..if full == [] then 0 else 1] else Pop(full);
        Onward(up, Follow(target, left), links + 1)
  }

  /** One round of the loop: it uses up a link or a byte. */
  function Round(fs: Tree, resolved: Bytes, left: Bytes, links: nat): (m: Move)
    requires left != []
    ensures m.Onward? ==> (m.links == links && |m.left| < |left|) || (m.links == links + 1 <= SYMLOOP_MAX)
  {
    var token, base := Token(left), Slashed(resolved);
    if token == [] || token == [DOT] then Onward(base, After(left), links)
    else if token == [DOT, DOT] then Onward(Pop(base), After(left), links)
    else Enter(fs, base + token, left, links)
  }

  function Walk(fs: Tree, resolved: Bytes, left: Bytes, links: nat): Outcome
    requires links <= SYMLOOP_MAX
    decreases SYMLOOP_MAX - links, |left|
  {
    if left == [] then Done(Trimmed(resolved), links)
    else
      match Round(fs, resolved, left, links)
      case Stop(o) => o
      case Onward(resolved, left, links) => Walk(fs, resolved, left, links)
  }

  function Resolve(fs: Tree, path: Bytes, cwd: Bytes): Outcome {
    if path == [] then Walk(fs, cwd, [DOT], 0)
    else if path[0] == SLASH then Walk(fs, [SLASH], path[1..], 0)
    else Walk(fs, cwd, path, 0)
  }

  /** `realpath` with its buffer, cursor and link counter. */
  method RealPath(fs: Tree, path: Bytes, cwd: Bytes) returns (r: Outcome)
    ensures r == Resolve(fs, path, cwd)
  {
    var resolved, left := cwd, path;
    if path == [] {
      left := [DOT];
    } else if path[0] == SLASH {
      resolved, left := [SLASH], path[1..];
    }
    var links: nat, pos: nat := 0, 0;
    assert left[0..] == left;
    while pos < |left|
      invariant pos <= |left| && links <= SYMLOOP_MAX
      invariant Walk(fs, resolved, left[pos..], links) == Resolve(fs, path, cwd)
      decreases SYMLOOP_MAX - links, |left| - pos
    {
      hide Round, Resolve, Trimmed;
      var stop;
      stop, resolved, left, pos, links := Advance(fs, resolved, left, pos, links);
      if stop.Some? {
        return stop.value;
      }
    }
    assert left[pos..] == [];
    return Done(Trimmed(resolved), links);
  }

  /** The body of the loop. */
  method Advance(fs: Tree, resolved0: Bytes, left0: Bytes, pos0: nat, links0: nat)
    returns (stop: Option<Outcome>, resolved: Bytes, left: Bytes, pos: nat, links: nat)
    requires pos0 < |left0| && links0 <= SYMLOOP_MAX
    ensures pos <= |left|
    ensures match Round(fs, resolved0, left0[pos0..], links0)
            case Stop(o) => stop == Some(o)
            case Onward(r, l, n) => stop == None && resolved == r && left[pos..] == l && links == n
  {
    hide FirstSlash, LastSlash, Token, After, IsLast, Follow, Pop, Slashed, Trimmed;
    stop, left, links := None, left0, links0;
    var token, last, next := NextToken(left0, pos0);
    ghost var rest := left0[pos0..];
    pos := next;
    resolved := Slashed(resolved0);
    if token == [] || token == [DOT] {
      return;
    }
    if token == [DOT, DOT] {
      resolved := PopComponent(resolved);
      return;
    }
    resolved := resolved + token;
    match fs(resolved)
    case Missing => stop := Some(if last then Done(Trimmed(resolved), links) else Failed("not found"));
    case Faulty(e) => stop := Some(Failed(e));
    case Plain =>
    case Link(target) =>
      if links == SYMLOOP_MAX {
        stop := Some(Failed("too many symlinks"));
        return;
      }
      links := links + 1;
      if target != [] && target[0] == SLASH {
        resolved := resolved[..1];
      } else {
        resolved := PopComponent(resolved);
      }
      left := Rejoin(target, left, pos, last, rest);
      pos := 0;
      assert left[0..] == left;
  }

  /** The link's target, then whatever followed the link. */
  method Rejoin(target: Bytes, left: Bytes, pos: nat, last: bool, ghost rest: Bytes) returns (r: Bytes)
    requires pos <= |left| && last == IsLast(rest) && left[pos..] == After(rest)
    ensures r == Follow(target, rest)
  {
    r := target;
    if !last {
      if !EndsInSlash(r) {
        r := r + [SLASH];
      }
      r := r + left[pos..];
    }
  }

  method NextToken(left: Bytes, pos: nat) returns (token: Bytes, last: bool, next: nat)
    requires pos < |left|
    ensures var rest := left[pos..];
            token == Token(rest) && last == IsLast(rest) && pos < next <= |left| && left[next..] == After(rest)
  {
    var i := pos;
    while i < |left| && left[i] != SLASH
      invariant pos <= i <= |left|
      invariant forall k :: pos <= k < i ==> left[k] != SLASH
    {
      i := i + 1;
    }
    ghost var rest := left[pos..];
    assert forall k :: 0 <= k < i - pos ==> rest[k] == left[pos + k];
    assert i < |left| ==> rest[i - pos] == SLASH;
    assert FirstSlash(rest) == i - pos;
    token, last := left[pos..i], i == |left|;
    next := if last then |left| else i + 1;
  }

  method PopComponent(b: Bytes) returns (r: Bytes)
    ensures r == Pop(b)
  {
    if |b| <= 1 {
      return b;
    }
    var end := if b[|b| - 1] == SLASH then |b| - 1 else |b|;
    var i := end;
    while i > 0 && b[i - 1] != SLASH
      invariant 0 <= i <= end
      invariant LastSlash(b[..i]) == LastSlash(b[..end])
    {
      assert b[..i][..i - 1] == b[..i - 1];
      i := i - 1;
    }
    assert LastSlash(b[..i]) == i - 1;
    return b[..if i < 1 then 1 else i];
  }

  // ---- what the result is ----

  predicate IsName(c: Bytes) { c != [] && c != [DOT] && c != [DOT, DOT] && SLASH !in c }

  predicate AreNames(cs: seq<Bytes>) { forall i :: 0 <= i < |cs| ==> IsName(cs[i]) }

  /** `/a/b`, and nothing for the root. */
  function Text(cs: seq<Bytes>): Bytes { if cs == [] then [] else Text(cs[..|cs| - 1]) + [SLASH] + cs[|cs| - 1] }

  function Path(cs: seq<Bytes>): Bytes { if cs == [] then [SLASH] else Text(cs) }

  /** Every directory on the way was looked up and is no symlink. */
  predicate Checked(fs: Tree, cs: seq<Bytes>) { forall k :: 0 < k <= |cs| ==> fs(Text(cs[..k])) == Plain }

  /** The same, except that the last component may be missing. */
  predicate Settled(fs: Tree, cs: seq<Bytes>) {
    cs != [] ==> Checked(fs, cs[..|cs| - 1]) && (fs(Text(cs)) == Plain || fs(Text(cs)) == Missing)
  }

  predicate Holds(resolved: Bytes, cs: seq<Bytes>) { resolved == Path(cs) || resolved == Text(cs) + [SLASH] }

  lemma TextOneMore(cs: seq<Bytes>, c: Bytes)
    ensures Text(cs + [c]) == Text(cs) + [SLASH] + c
  {
    assert (cs + [c])[..|cs|] == cs;
  }

  lemma SlashedHolds(resolved: Bytes, cs: seq<Bytes>)
    requires Holds(resolved, cs) && AreNames(cs)
    ensures Slashed(resolved) == Text(cs) + [SLASH]
    ensures Trimmed(resolved) == Path(cs)
  {
    if cs != [] {
      var c := cs[|cs| - 1];
      assert c[|c| - 1] in c;
      assert Text(cs)[|Text(cs)| - 1] == c[|c| - 1];
    }
  }

  lemma {:induction false} LastSlashOf(p: Bytes, c: Bytes)
    requires SLASH !in c
    ensures LastSlash(p + [SLASH] + c) == |p|
    decreases |c|
  {
    var b := p + [SLASH] + c;
    if c == [] {
      assert b[|b| - 1] == SLASH;
    } else {
      assert c[|c| - 1] in c && b[|b| - 1] == c[|c| - 1];
      assert b[..|b| - 1] == p + [SLASH] + c[..|c| - 1];
      LastSlashOf(p, c[..|c| - 1]);
    }
  }

  lemma PopBytes(p: Bytes, c: Bytes)
    requires c != [] && SLASH !in c
    ensures Pop(p + [SLASH] + c) == p + [SLASH] && Pop(p + [SLASH] + c + [SLASH]) == p + [SLASH]
  {
    LastSlashOf(p, c);
    hide LastSlash;
    var b := p + [SLASH] + c;
    assert c[|c| - 1] in c && b[|b| - 1] == c[|c| - 1];
    assert b[..|b|] == b && (b + [SLASH])[..|b|] == b;
    assert b[..|p| + 1] == p + [SLASH] && (b + [SLASH])[..|p| + 1] == p + [SLASH];
  }

  /** Popping drops the last name, with or without a slash after it. */
  lemma PopHolds(cs: seq<Bytes>)
    requires AreNames(cs)
    ensures var up := if cs == [] then cs else cs[..|cs| - 1];
            Pop(Text(cs) + [SLASH]) == Text(up) + [SLASH] && (cs != [] ==> Pop(Text(cs)) == Text(up) + [SLASH])
  {
    if cs != [] {
      PopBytes(Text(cs[..|cs| - 1]), cs[|cs| - 1]);
    }
  }

  lemma CheckedPrefix(fs: Tree, cs: seq<Bytes>, n: nat)
    requires Checked(fs, cs) && n <= |cs|
    ensures Checked(fs, cs[..n])
  {
    forall k | 0 < k <= n ensures fs(Text(cs[..n][..k])) == Plain {
      assert cs[..n][..k] == cs[..k];
    }
  }

  lemma CheckedOneMore(fs: Tree, cs: seq<Bytes>, c: Bytes)
    requires Checked(fs, cs) && fs(Text(cs + [c])) == Plain
    ensures Checked(fs, cs + [c])
  {
    forall k | 0 < k <= |cs| + 1 ensures fs(Text((cs + [c])[..k])) == Plain {
      if k <= |cs| {
        assert (cs + [c])[..k] == cs[..k];
      } else {
        assert (cs + [c])[..k] == cs + [c];
      }
    }
  }

  lemma CheckedSettled(fs: Tree, cs: seq<Bytes>)
    requires Checked(fs, cs)
    ensures Settled(fs, cs)
  {
    if cs != [] {
      CheckedPrefix(fs, cs, |cs| - 1);
      assert cs[..|cs|] == cs;
    }
  }

  lemma TokenIsName(left: Bytes)
    requires Token(left) != [] && Token(left) != [DOT] && Token(left) != [DOT, DOT]
    ensures IsName(Token(left))
  {
  }

  /** A path with no empty, dot or dot-dot component, whose directories exist
      and are no symlinks. */
  ghost predicate Canonical(fs: Tree, path: Bytes) {
    exists cs :: path == Path(cs) && AreNames(cs) && Settled(fs, cs)
  }

  /** A directory on the way: canonical, existing, no symlink in it. */
  ghost predicate Directory(fs: Tree, resolved: Bytes, cs: seq<Bytes>) {
    Holds(resolved, cs) && AreNames(cs) && Checked(fs, cs)
  }

  /** One named component after the directory `cs`. */
  lemma EnterKeeps(fs: Tree, left: Bytes, links: nat, cs: seq<Bytes>) returns (cs': seq<Bytes>)
    requires links <= SYMLOOP_MAX && AreNames(cs) && Checked(fs, cs) && IsName(Token(left))
    ensures match Enter(fs, Text(cs) + [SLASH] + Token(left), left, links)
            case Stop(o) => o.Done? ==> Canonical(fs, o.path) && o.links <= SYMLOOP_MAX
            case Onward(resolved, _, _) => Directory(fs, resolved, cs')
  {
    hide FirstSlash, LastSlash, Pop, Follow, After, Trimmed, Token, IsLast;
    var c := Token(left);
    var more := cs + [c];
    TextOneMore(cs, c);
    PopHolds(more);
    assert more[..|more| - 1] == cs;
    SlashedHolds(Text(more), more);
    cs' := more;
    match fs(Text(more))
    case Plain => CheckedOneMore(fs, cs, c);
    case Missing => assert Settled(fs, more);
    case Link(target) =>
      cs' := if target != [] && target[0] == SLASH then [] else cs;
      assert target != [] && target[0] == SLASH ==> Text(more)[..1] == [SLASH] by {
        StartsWithSlash(more);
      }
    case Faulty(_) =>
  }

  lemma StartsWithSlash(cs: seq<Bytes>)
    requires cs != []
    ensures Text(cs) != [] && Text(cs)[0] == SLASH
  {
    if |cs| > 1 {
      StartsWithSlash(cs[..|cs| - 1]);
    }
  }

  lemma RoundKeeps(fs: Tree, resolved: Bytes, left: Bytes, links: nat, cs: seq<Bytes>) returns (cs': seq<Bytes>)
    requires links <= SYMLOOP_MAX && Directory(fs, resolved, cs) && left != []
    ensures match Round(fs, resolved, left, links)
            case Stop(o) => o.Done? ==> Canonical(fs, o.path) && o.links <= SYMLOOP_MAX
            case Onward(next, _, _) => Directory(fs, next, cs')
  {
    SlashedHolds(resolved, cs);
    PopHolds(cs);
    cs' := cs;
    var token := Token(left);
    if token == [DOT, DOT] {
      cs' := if cs == [] then cs else cs[..|cs| - 1];
      CheckedPrefix(fs, cs, |cs'|);
    } else if token != [] && token != [DOT] {
      TokenIsName(left);
      cs' := EnterKeeps(fs, left, links, cs);
    }
    hide FirstSlash, LastSlash, Pop, Follow, After, Trimmed, Token, IsLast, Enter, Slashed, Text, Checked;
  }

  /** From any resolved directory, success gives a canonical path and at most 32
      links followed. */
  lemma {:induction false} WalkIsCanonical(fs: Tree, resolved: Bytes, left: Bytes, links: nat, cs: seq<Bytes>)
    requires links <= SYMLOOP_MAX && Directory(fs, resolved, cs)
    ensures var r := Walk(fs, resolved, left, links);
            r.Done? ==> Canonical(fs, r.path) && r.links <= SYMLOOP_MAX
    decreases SYMLOOP_MAX - links, |left|
  {
    SlashedHolds(resolved, cs);
    CheckedSettled(fs, cs);
    hide Round, Directory, Settled, Checked, Text;
    if left != [] {
      var cs' := RoundKeeps(fs, resolved, left, links, cs);
      var m := Round(fs, resolved, left, links);
      if m.Onward? {
        WalkIsCanonical(fs, m.resolved, m.left, m.links, cs');
      }
    } else {
      assert Canonical(fs, Path(cs));
    }
  }

  /** For every path and every resolved absolute working directory: success is
      canonical, after at most 32 links. */
  lemma RealPathIsCanonical(fs: Tree, path: Bytes, cwd: seq<Bytes>)
    requires AreNames(cwd) && Checked(fs, cwd)
    ensures var r := Resolve(fs, path, Path(cwd));
            r.Done? ==> Canonical(fs, r.path) && r.links <= SYMLOOP_MAX
  {
    hide Walk;
    WalkIsCanonical(fs, Path(cwd), if path == [] then [DOT] else path, 0, cwd);
    if path != [] {
      WalkIsCanonical(fs, [SLASH], path[1..], 0, []);
    }
  }

  // ---- canonical paths resolve to themselves ----

  /** The components still to go, as they stand in a path. */
  function Rest(cs: seq<Bytes>): Bytes {
    if cs == [] then [] else if |cs| == 1 then cs[0] else cs[0] + [SLASH] + Rest(cs[1..])
  }

  lemma FirstSlashOf(c: Bytes, tail: Bytes)
    requires SLASH !in c
    ensures FirstSlash(c + [SLASH] + tail) == |c| && FirstSlash(c) == |c|
  {
    var b := c + [SLASH] + tail;
    assert forall k :: 0 <= k < |c| ==> b[k] == c[k];
    assert b[|c|] == SLASH;
  }

  lemma RestParts(cs: seq<Bytes>)
    requires AreNames(cs) && cs != []
    ensures var left := Rest(cs);
            left != [] && Token(left) == cs[0] && IsLast(left) == (|cs| == 1) && After(left) == Rest(cs[1..])
  {
    FirstSlashOf(cs[0], if |cs| == 1 then [] else Rest(cs[1..]));
    var left := Rest(cs);
    if |cs| > 1 {
      assert left[|cs[0]| + 1..] == Rest(cs[1..]);
    }
  }

  lemma {:induction false} TextRest(done: seq<Bytes>, todo: seq<Bytes>)
    requires todo != []
    ensures Text(done + todo) == Text(done) + [SLASH] + Rest(todo)
    decreases |todo|
  {
    var c := todo[0];
    TextOneMore(done, c);
    if |todo| == 1 {
      assert done + todo == done + [c];
    } else {
      assert done + todo == done + [c] + todo[1..];
      TextRest(done + [c], todo[1..]);
    }
  }

  lemma {:induction false} WalkOnCanonical(fs: Tree, done: seq<Bytes>, todo: seq<Bytes>)
    requires AreNames(done + todo) && Settled(fs, done + todo)
    ensures Walk(fs, Path(done), Rest(todo), 0) == Done(Path(done + todo), 0)
    decreases |todo|
  {
    assert forall i :: 0 <= i < |done| ==> done[i] == (done + todo)[i];
    SlashedHolds(Path(done), done);
    if todo == [] {
      assert done + todo == done;
    } else {
      var c := todo[0];
      assert forall i :: 0 <= i < |todo| ==> todo[i] == (done + todo)[|done| + i];
      RestParts(todo);
      TextOneMore(done, c);
      assert done + [c] + todo[1..] == done + todo;
      StepIsPlain(fs, done + todo, |done| + 1);
      assert (done + todo)[..|done| + 1] == done + [c];
      hide Token, After, IsLast, Rest, Settled, Slashed, Text, Trimmed;
      if |todo| == 1 && fs(Text(done + [c])) == Missing {
        LastMissing(fs, done, todo);
      } else {
        WalkOnCanonical(fs, done + [c], todo[1..]);
      }
    }
  }

  lemma StepIsPlain(fs: Tree, cs: seq<Bytes>, k: nat)
    requires Settled(fs, cs) && 0 < k <= |cs|
    ensures fs(Text(cs[..k])) == Plain || (k == |cs| && fs(Text(cs[..k])) == Missing)
  {
    if k == |cs| {
      assert cs[..k] == cs;
    } else {
      assert cs[..|cs| - 1][..k] == cs[..k];
    }
  }

  lemma LastMissing(fs: Tree, done: seq<Bytes>, todo: seq<Bytes>)
    requires |todo| == 1 && AreNames(done + todo) && fs(Text(done + todo)) == Missing
    ensures Walk(fs, Path(done), Rest(todo), 0) == Done(Path(done + todo), 0)
  {
    assert forall i :: 0 <= i < |done| ==> done[i] == (done + todo)[i];
    assert todo[0] == (done + todo)[|done|] && todo == [todo[0]];
    SlashedHolds(Path(done), done);
    RestParts(todo);
    TextOneMore(done, todo[0]);
    SlashedHolds(Path(done + todo), done + todo);
    hide Token, After, IsLast, Rest, Slashed, Text, Trimmed;
  }

  /** On a canonical path, `realpath` is the identity and follows no link. */
  lemma CanonicalIsFixed(fs: Tree, path: Bytes, cwd: Bytes)
    requires Canonical(fs, path)
    ensures Resolve(fs, path, cwd) == Done(path, 0)
  {
    var cs :| path == Path(cs) && AreNames(cs) && Settled(fs, cs);
    assert [] + cs == cs;
    WalkOnCanonical(fs, [], cs);
    if cs != [] {
      TextRest([], cs);
      assert path[1..] == Rest(cs);
    }
    hide Walk;
  }

  /** Resolving twice is resolving once. */
  lemma RealPathIsIdempotent(fs: Tree, path: Bytes, cwd: seq<Bytes>)
    requires AreNames(cwd) && Checked(fs, cwd)
    ensures var r := Resolve(fs, path, Path(cwd));
            r.Done? ==> Resolve(fs, r.path, Path(cwd)) == Done(r.path, 0)
  {
    hide Resolve, Canonical;
    RealPathIsCanonical(fs, path, cwd);
    var r := Resolve(fs, path, Path(cwd));
    if r.Done? {
      CanonicalIsFixed(fs, r.path, Path(cwd));
    }
  }
}

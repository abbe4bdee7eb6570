/** What `realpath` (`sftp.rs`) means: a walk over lists of names, one component
at a time, with no cursor, separator or buffer. */
module PathNames {
  import opened Wire
  import opened RealPath

  datatype Arrival = At(names: seq<Bytes>, links: nat) | Lost(error: string)

  /** A path cut at its slashes. */
  function Components(path: Bytes): (cs: seq<Bytes>)
    ensures cs != []
    decreases |path|
  {
    var i := FirstSlash(path);
    if i == |path| then [path] else [path[..i]] + Components(path[i + 1..])
  }

  predicate Absolute(path: Bytes) { path != [] && path[0] == SLASH }

  function Parent(dir: seq<Bytes>): seq<Bytes> { if dir == [] then [] else dir[..|dir| - 1] }

  /** From a directory, through the components in `todo`. A link is replaced by
      its target's components, taken from the root or from the link's directory. */
  function Go(fs: Tree, dir: seq<Bytes>, todo: seq<Bytes>, links: nat): Arrival
    requires links <= 32
    decreases 32 - links, |todo|
  {
    if todo == [] then At(dir, links)
    else
      var name, rest := todo[0], todo[1..];
      if name == [] || name == Ascii(".") then Go(fs, dir, rest, links)
      else if name == Ascii("..") then Go(fs, Parent(dir), rest, links)
      else
        match fs(Text(dir + [name]))
        case Missing => if rest == [] then At(dir + [name], links) else Lost("not found")
        case Faulty(e) => Lost(e)
        case Plain => Go(fs, dir + [name], rest, links)
        case Link(target) =>
          if links == 32 then Lost("too many symlinks")
          else Go(fs, if Absolute(target) then [] else dir, Components(target) + rest, links + 1)
  }

  function Named(a: Arrival): Outcome {
    match a
    case At(names, links) => Done(Path(names), links)
    case Lost(e) => Failed(e)
  }

  // ---- components ----

  lemma ComponentsParts(left: Bytes)
    ensures Components(left)[0] == Token(left)
    ensures IsLast(left) ==> Components(left) == [left]
    ensures !IsLast(left) ==> Components(left) == [Token(left)] + Components(After(left))
    ensures Components(left)[1..] == if IsLast(left) then [] else Components(After(left))
  {
  }

  lemma FirstSlashIn(a: Bytes, b: Bytes)
    ensures FirstSlash(a + [SLASH] + b) == FirstSlash(a)
  {
    var i, s := FirstSlash(a), a + [SLASH] + b;
    assert forall k :: 0 <= k < |a| ==> s[k] == a[k];
    assert s[|a|] == SLASH && s[i] == SLASH;
    assert forall k :: 0 <= k < i ==> s[k] != SLASH;
  }

  /** Joining paths joins their components. */
  lemma {:induction false} ComponentsJoin(a: Bytes, b: Bytes)
    ensures Components(a + [SLASH] + b) == Components(a) + Components(b)
    decreases |a|
  {
    hide FirstSlash;
    FirstSlashIn(a, b);
    var i, s := FirstSlash(a), a + [SLASH] + b;
    if i == |a| {
      assert s[..i] == a && s[i + 1..] == b;
    } else {
      assert s[..i] == a[..i] && s[i + 1..] == a[i + 1..] + [SLASH] + b;
      ComponentsJoin(a[i + 1..], b);
    }
  }

  lemma NoComponents()
    ensures Components([]) == [[]] && Components([])[1..] == []
  {
  }

  lemma Rejoined(a: seq<Bytes>, b: seq<Bytes>)
    requires a != []
    ensures (a + b)[0] == a[0] && (a + b)[1..] == a[1..] + b
  {
  }

  lemma Regrouped(a: seq<Bytes>, b: seq<Bytes>, c: seq<Bytes>)
    ensures a + (b + c) == a + b + c
  {
  }

  /** An empty component before others says nothing. */
  lemma {:induction false} SkipEmpty(fs: Tree, dir: seq<Bytes>, a: seq<Bytes>, b: seq<Bytes>, links: nat)
    requires links <= 32 && b != []
    ensures Go(fs, dir, a + [[]] + b, links) == Go(fs, dir, a + b, links)
    decreases 32 - links, |a|
  {
    hide Components, Text, Absolute, Parent;
    if a == [] {
      assert a + [[]] + b == [[]] + b && ([[]] + b)[1..] == b && a + b == b;
    } else {
      var name, rest := a[0], a[1..];
      Rejoined(a, b);
      Rejoined(a, [[]] + b);
      Regrouped(a, [[]], b);
      Regrouped(rest, [[]], b);
      if name == [] || name == Ascii(".") {
        SkipEmpty(fs, dir, rest, b, links);
      } else if name == Ascii("..") {
        SkipEmpty(fs, Parent(dir), rest, b, links);
      } else {
        match fs(Text(dir + [name]))
        case Plain => SkipEmpty(fs, dir + [name], rest, b, links);
        case Link(target) =>
          if links < 32 {
            var from, cs := if Absolute(target) then [] else dir, Components(target);
            SkipEmpty(fs, from, cs + rest, b, links + 1);
            Regrouped(cs, rest, b);
            Regrouped(cs, rest + [[]], b);
            Regrouped(cs, rest, [[]]);
          }
        case _ =>
      }
    }
  }

  lemma TargetThenRest(fs: Tree, dir: seq<Bytes>, target: Bytes, rest: Bytes, links: nat)
    requires links <= 32
    ensures Go(fs, dir, Components(Slashed(target) + rest), links) ==
            Go(fs, dir, Components(target) + Components(rest), links)
  {
    hide FirstSlash, Components, Go;
    if EndsInSlash(target) {
      var t := target[..|target| - 1];
      assert target == t + [SLASH] + [] && target + rest == t + [SLASH] + rest;
      ComponentsJoin(t, []);
      ComponentsJoin(t, rest);
      NoComponents();
      SkipEmpty(fs, dir, Components(t), Components(rest), links);
    } else {
      ComponentsJoin(target, rest);
    }
  }

  /** What is left after a link, by components. */
  lemma FollowedLink(fs: Tree, dir: seq<Bytes>, target: Bytes, left: Bytes, links: nat)
    requires links <= 32
    ensures Go(fs, dir, Components(Follow(target, left)), links) ==
            Go(fs, dir, Components(target) + Components(left)[1..], links)
  {
    hide FirstSlash, Components, Go, Slashed, IsLast, After;
    ComponentsParts(left);
    if IsLast(left) {
      assert Components(target) + [] == Components(target);
    } else {
      TargetThenRest(fs, dir, target, After(left), links);
    }
  }

  // ---- the loop walks by names ----

  lemma {:induction false} WalkIsGo(fs: Tree, resolved: Bytes, left: Bytes, links: nat, dir: seq<Bytes>)
    requires links <= 32 && Holds(resolved, dir) && AreNames(dir)
    ensures Walk(fs, resolved, left, links) == Named(Go(fs, dir, Components(left), links))
    decreases 32 - links, |left|
  {
    hide FirstSlash, Components, Token, After, IsLast, Pop, Follow, Text, Slashed, Trimmed, Holds;
    SlashedHolds(resolved, dir);
    ComponentsParts(left);
    if left == [] {
      NoComponents();
    } else {
      var name := Token(left);
      if name == [] || name == [DOT] {
        HoldsSlash(dir);
        StepPlain(fs, dir, left, links);
        WalkIsGo(fs, Slashed(resolved), After(left), links, dir);
      } else if name == [DOT, DOT] {
        PopHolds(dir);
        HoldsSlash(Parent(dir));
        StepPlain(fs, Parent(dir), left, links);
        WalkIsGo(fs, Pop(Slashed(resolved)), After(left), links, Parent(dir));
      } else {
        TokenIsName(left);
        EnterIsGo(fs, resolved, left, links, dir);
      }
    }
  }

  lemma HoldsSlash(dir: seq<Bytes>)
    ensures Holds(Text(dir) + [SLASH], dir) && (dir != [] ==> Holds(Text(dir), dir))
  {
  }

  /** No component left, or the components after a slash. */
  lemma StepPlain(fs: Tree, dir: seq<Bytes>, left: Bytes, links: nat)
    requires links <= 32
    ensures Go(fs, dir, Components(left)[1..], links) == Go(fs, dir, Components(After(left)), links)
  {
    ComponentsParts(left);
    NoComponents();
  }

  lemma EnterIsGo(fs: Tree, resolved: Bytes, left: Bytes, links: nat, dir: seq<Bytes>)
    requires links <= 32 && Holds(resolved, dir) && AreNames(dir) && left != [] && IsName(Token(left))
    ensures Walk(fs, resolved, left, links) == Named(Go(fs, dir, Components(left), links))
    decreases 32 - links, |left|, 0
  {
    hide FirstSlash, Components, Token, After, IsLast, Pop, Follow, Text, Slashed, Trimmed, Holds;
    SlashedHolds(resolved, dir);
    ComponentsParts(left);
    var name := Token(left);
    var more := dir + [name];
    TextOneMore(dir, name);
    HoldsSlash(more);
    SlashedHolds(Text(more), more);
    match fs(Text(more))
    case Plain =>
      StepPlain(fs, more, left, links);
      WalkIsGo(fs, Text(more), After(left), links, more);
    case Missing => OneComponent(left);
    case Link(target) =>
      if links < 32 {
        PopHolds(more);
        assert more[..|more| - 1] == dir;
        HoldsSlash(dir);
        HoldsSlash([]);
        RootOf(more);
        var from := if Absolute(target) then [] else dir;
        var up := if Absolute(target) then Text(more)[..1] else Pop(Text(more));
        FollowedLink(fs, from, target, left, links + 1);
        WalkIsGo(fs, up, Follow(target, left), links + 1, from);
      }
    case Faulty(_) =>
  }

  lemma OneComponent(left: Bytes)
    ensures IsLast(left) <==> Components(left)[1..] == []
  {
    ComponentsParts(left);
  }

  lemma RootOf(cs: seq<Bytes>)
    requires cs != []
    ensures Text(cs) != [] && Text(cs)[..1] == [SLASH] && Text([]) + [SLASH] == [SLASH]
  {
    StartsWithSlash(cs);
  }

  /** `realpath` resolves by names: the result and the links followed, or the
      error, are those of the walk from the root or the working directory. */
  lemma ResolvesByName(fs: Tree, path: Bytes, cwd: seq<Bytes>)
    requires AreNames(cwd)
    ensures Resolve(fs, path, Path(cwd)) ==
            Named(Go(fs, if Absolute(path) then [] else cwd, Components(path), 0))
  {
    hide Walk;
    if path == [] {
      WalkIsGo(fs, Path(cwd), [DOT], 0, cwd);
      NoComponents();
      assert Components([DOT]) == [[DOT]] && Components([DOT])[1..] == [];
    } else if path[0] == SLASH {
      WalkIsGo(fs, [SLASH], path[1..], 0, []);
      ComponentsJoin([], path[1..]);
      assert [] + [SLASH] + path[1..] == path;
      NoComponents();
      assert ([[]] + Components(path[1..]))[1..] == Components(path[1..]);
    } else {
      WalkIsGo(fs, Path(cwd), path, 0, cwd);
    }
  }

  // ---- composition ----

  /** Links counted from `d` on instead of from 0. */
  lemma {:induction false} LinksShift(fs: Tree, dir: seq<Bytes>, todo: seq<Bytes>, n: nat, d: nat, x: seq<Bytes>,
                                      m: nat)
    requires n + d <= 32
    ensures Go(fs, dir, todo, n + d) == At(x, m + d) <==> Go(fs, dir, todo, n) == At(x, m) && m + d <= 32
    decreases 32 - n, |todo|
  {
    hide Components, Text, Absolute, Parent, Ascii;
    if todo == [] {
    } else {
      var name, rest := todo[0], todo[1..];
      if name == [] || name == Ascii(".") {
        LinksShift(fs, dir, rest, n, d, x, m);
      } else if name == Ascii("..") {
        LinksShift(fs, Parent(dir), rest, n, d, x, m);
      } else {
        match fs(Text(dir + [name]))
        case Plain => LinksShift(fs, dir + [name], rest, n, d, x, m);
        case Link(target) =>
          var from, todo' := if Absolute(target) then [] else dir, Components(target) + rest;
          if n + d < 32 {
            LinksShift(fs, from, todo', n + 1, d, x, m);
          } else if n < 32 {
            LinksGrow(fs, from, todo', n + 1);
          }
        case _ =>
      }
    }
  }

  lemma {:induction false} LinksGrow(fs: Tree, dir: seq<Bytes>, todo: seq<Bytes>, n: nat)
    requires n <= 32
    ensures var a := Go(fs, dir, todo, n); a.At? ==> n <= a.links <= 32
    decreases 32 - n, |todo|
  {
    hide Components, Text, Absolute, Parent, Ascii;
    if todo != [] {
      var name, rest := todo[0], todo[1..];
      if name == [] || name == Ascii(".") {
        LinksGrow(fs, dir, rest, n);
      } else if name == Ascii("..") {
        LinksGrow(fs, Parent(dir), rest, n);
      } else {
        match fs(Text(dir + [name]))
        case Plain => LinksGrow(fs, dir + [name], rest, n);
        case Link(target) =>
          if n < 32 {
            LinksGrow(fs, if Absolute(target) then [] else dir, Components(target) + rest, n + 1);
          }
        case _ =>
      }
    }
  }

  /** An existing place: the root, or a path that is there. */
  predicate Exists(fs: Tree, names: seq<Bytes>) { names == [] || fs(Text(names)) == Plain }

  /** Going on after an arrival at an existing place. */
  lemma {:induction false} GoOn(fs: Tree, dir: seq<Bytes>, a: seq<Bytes>, b: seq<Bytes>, n: nat)
    requires n <= 32 && b != [] && Go(fs, dir, a, n).At? && Exists(fs, Go(fs, dir, a, n).names)
    ensures var place := Go(fs, dir, a, n);
            place.links <= 32 && Go(fs, dir, a + b, n) == Go(fs, place.names, b, place.links)
    decreases 32 - n, |a|
  {
    hide Components, Text, Absolute, Parent, Ascii;
    LinksGrow(fs, dir, a, n);
    if a == [] {
      assert a + b == b;
    } else {
      var name, rest := a[0], a[1..];
      Rejoined(a, b);
      if name == [] || name == Ascii(".") {
        GoOn(fs, dir, rest, b, n);
      } else if name == Ascii("..") {
        GoOn(fs, Parent(dir), rest, b, n);
      } else {
        match fs(Text(dir + [name]))
        case Plain => GoOn(fs, dir + [name], rest, b, n);
        case Link(target) =>
          var cs := Components(target);
          GoOn(fs, if Absolute(target) then [] else dir, cs + rest, b, n + 1);
          Regrouped(cs, rest, b);
        case _ =>
      }
    }
  }

  lemma {:induction false} GoKeepsNames(fs: Tree, dir: seq<Bytes>, todo: seq<Bytes>, n: nat)
    requires n <= 32 && AreNames(dir) && forall i :: 0 <= i < |todo| ==> SLASH !in todo[i]
    ensures var a := Go(fs, dir, todo, n); a.At? ==> AreNames(a.names)
    decreases 32 - n, |todo|
  {
    hide Components, Text, Absolute;
    if todo != [] {
      var name, rest := todo[0], todo[1..];
      if name == [] || name == Ascii(".") {
        GoKeepsNames(fs, dir, rest, n);
      } else if name == Ascii("..") {
        GoKeepsNames(fs, Parent(dir), rest, n);
      } else {
        assert IsName(name);
        match fs(Text(dir + [name]))
        case Plain => GoKeepsNames(fs, dir + [name], rest, n);
        case Link(target) =>
          if n < 32 {
            NoSlashInside(target);
            GoKeepsNames(fs, if Absolute(target) then [] else dir, Components(target) + rest, n + 1);
          }
        case _ =>
      }
    }
  }

  lemma {:induction false} NoSlashInside(path: Bytes)
    ensures forall i :: 0 <= i < |Components(path)| ==> SLASH !in Components(path)[i]
    decreases |path|
  {
    var i := FirstSlash(path);
    if i < |path| {
      NoSlashInside(path[i + 1..]);
    }
  }

  lemma {:induction false} PathIsInjective(a: seq<Bytes>, b: seq<Bytes>)
    requires AreNames(a) && AreNames(b) && Text(a) == Text(b)
    ensures a == b
    decreases |a|
  {
    if a != [] && b != [] {
      var c, d := a[|a| - 1], b[|b| - 1];
      var front, front' := a[..|a| - 1], b[..|b| - 1];
      LastSlashOf(Text(front), c);
      LastSlashOf(Text(front'), d);
      assert Text(a)[..|Text(front)|] == Text(front) && Text(b)[..|Text(front)|] == Text(front');
      assert Text(a)[|Text(front)| + 1..] == c && Text(b)[|Text(front)| + 1..] == d;
      PathIsInjective(front, front');
      assert a == front + [c] && b == front' + [d];
    }
  }

  lemma LastComponent(names: seq<Bytes>)
    requires AreNames(names) && names != []
    ensures var front, c := names[..|names| - 1], names[|names| - 1];
            Components(Text(names)) == Components(Text(front)) + [c] && IsName(c) && AreNames(front)
  {
    var front, c := names[..|names| - 1], names[|names| - 1];
    ComponentsJoin(Text(front), c);
    FirstSlashOf(c, []);
    hide FirstSlash;
  }

  /** An existing canonical path leads to itself. */
  lemma {:induction false} GoCanonical(fs: Tree, names: seq<Bytes>)
    requires AreNames(names) && Checked(fs, names)
    ensures Go(fs, [], Components(Text(names)), 0) == At(names, 0)
    decreases |names|
  {
    hide FirstSlash, Components, IsName;
    if names == [] {
      NoComponents();
    } else {
      var front, c := names[..|names| - 1], names[|names| - 1];
      LastComponent(names);
      CheckedPrefix(fs, names, |front|);
      GoCanonical(fs, front);
      assert names == front + [c] && names[..|names|] == names;
      assert Exists(fs, front);
      GoOn(fs, [], Components(Text(front)), [c], 0);
      GoPlain(fs, front, c);
    }
  }

  lemma GoPlain(fs: Tree, dir: seq<Bytes>, c: Bytes)
    requires IsName(c) && fs(Text(dir + [c])) == Plain
    ensures Go(fs, dir, [c], 0) == At(dir + [c], 0)
  {
    hide Text;
  }

  lemma SettledIsChecked(fs: Tree, cs: seq<Bytes>)
    requires Settled(fs, cs) && Exists(fs, cs)
    ensures Checked(fs, cs)
  {
    forall k | 0 < k <= |cs| ensures fs(Text(cs[..k])) == Plain {
      StepIsPlain(fs, cs, k);
      assert cs[..|cs|] == cs;
    }
  }

  lemma RootIsNoName(cs: seq<Bytes>)
    requires AreNames(cs) && Path(cs) == [SLASH]
    ensures cs == []
  {
    assert cs == [] || IsName(cs[|cs| - 1]);
  }

  /** Where a resolution arrives: a list of names, all of them there when its
      last one is. */
  lemma ArrivalIsChecked(fs: Tree, p: Bytes, cwd: seq<Bytes>)
    requires AreNames(cwd) && Checked(fs, cwd)
    ensures var a := Go(fs, if Absolute(p) then [] else cwd, Components(p), 0);
            a.At? ==> AreNames(a.names) && (Exists(fs, a.names) ==> Checked(fs, a.names))
  {
    hide Go, Components, Text, Resolve, Settled, Checked, Absolute, IsName;
    ResolvesByName(fs, p, cwd);
    RealPathIsCanonical(fs, p, cwd);
    NoSlashInside(p);
    GoKeepsNames(fs, if Absolute(p) then [] else cwd, Components(p), 0);
    var a := Go(fs, if Absolute(p) then [] else cwd, Components(p), 0);
    if a.At? {
      assert Canonical(fs, Path(a.names));
      var cs :| Path(a.names) == Path(cs) && AreNames(cs) && Settled(fs, cs);
      if a.names == [] {
        RootIsNoName(cs);
      } else if cs == [] {
        RootIsNoName(a.names);
      } else {
        PathIsInjective(cs, a.names);
      }
      if Exists(fs, cs) {
        SettledIsChecked(fs, cs);
      }
    }
  }

  /** From an existing canonical path. */
  lemma FromCanonical(fs: Tree, names: seq<Bytes>, r: Bytes, cwd: seq<Bytes>)
    requires AreNames(names) && Checked(fs, names) && AreNames(cwd)
    ensures Resolve(fs, Slashed(Path(names)) + r, Path(cwd)) == Named(Go(fs, names, Components(r), 0))
  {
    SlashedHolds(Path(names), names);
    ComponentsJoin(Text(names), r);
    GoCanonical(fs, names);
    assert names != [] ==> names[..|names|] == names;
    GoOn(fs, [], Components(Text(names)), Components(r), 0);
    if names != [] {
      StartsWithSlash(names);
    }
    hide Go, Components, Text, Resolve, Slashed;
    ResolvesByName(fs, Text(names) + [SLASH] + r, cwd);
  }

  lemma ShiftedNames(fs: Tree, dir: seq<Bytes>, todo: seq<Bytes>, n: nat, x: Bytes, m: nat)
    requires n <= 32
    ensures Named(Go(fs, dir, todo, n)) == Done(x, m) <==>
            n <= m <= 32 && Named(Go(fs, dir, todo, 0)) == Done(x, m - n)
  {
    hide Go, Path;
    var a, b := Go(fs, dir, todo, n), Go(fs, dir, todo, 0);
    LinksGrow(fs, dir, todo, n);
    if a.At? {
      LinksShift(fs, dir, todo, 0, n, a.names, a.links - n);
    }
    if b.At? {
      LinksShift(fs, dir, todo, 0, n, b.names, b.links);
    }
  }

  /** What follows a path that resolves is resolved from where it leads: `p/r`
      is `q/r` when `p` is `q`, and the links add up, to at most 32. */
  lemma Composes(fs: Tree, p: Bytes, r: Bytes, cwd: seq<Bytes>, q: Bytes, n: nat, x: Bytes, m: nat)
    requires AreNames(cwd) && Checked(fs, cwd)
    requires p != [] && Resolve(fs, p, Path(cwd)) == Done(q, n) && (q == [SLASH] || fs(q) == Plain)
    ensures Resolve(fs, p + [SLASH] + r, Path(cwd)) == Done(x, m) <==>
            n <= m <= 32 && Resolve(fs, Slashed(q) + r, Path(cwd)) == Done(x, m - n)
  {
    hide Resolve, Go, Components, Text, Slashed, Checked, AreNames;
    var from := if Absolute(p) then [] else cwd;
    var place := Go(fs, from, Components(p), 0);
    ResolvesByName(fs, p, cwd);
    ArrivalIsChecked(fs, p, cwd);
    if q == [SLASH] {
      RootIsNoName(place.names);
    }
    GoOn(fs, from, Components(p), Components(r), 0);
    ComponentsJoin(p, r);
    assert Absolute(p + [SLASH] + r) == Absolute(p);
    ResolvesByName(fs, p + [SLASH] + r, cwd);
    FromCanonical(fs, place.names, r, cwd);
    ShiftedNames(fs, place.names, Components(r), n, x, m);
  }

  lemma GoLink(fs: Tree, dir: seq<Bytes>, c: Bytes, target: Bytes)
    requires IsName(c) && fs(Text(dir + [c])) == Link(target)
    ensures Go(fs, dir, [c], 0) == Go(fs, if Absolute(target) then [] else dir, Components(target), 1)
  {
    hide Text;
    assert Components(target) + [c][1..] == Components(target);
  }

  /** A path whose last name is a symlink resolves as the link's target does, from
      the directory the link is in, with one link more. */
  lemma LinkLeads(fs: Tree, dir: seq<Bytes>, c: Bytes, target: Bytes, cwd: seq<Bytes>, x: Bytes, m: nat)
    requires AreNames(dir) && Checked(fs, dir) && IsName(c) && fs(Text(dir + [c])) == Link(target) && AreNames(cwd)
    ensures Resolve(fs, Text(dir + [c]), Path(cwd)) == Done(x, m) <==>
            1 <= m <= 32 && Resolve(fs, target, Path(dir)) == Done(x, m - 1)
  {
    hide Resolve, Go, Text, FirstSlash, Checked, AreNames;
    TextOneMore(dir, c);
    SlashedHolds(Path(dir), dir);
    FromCanonical(fs, dir, c, cwd);
    FirstSlashOf(c, []);
    assert Components(c) == [c];
    GoLink(fs, dir, c, target);
    ResolvesByName(fs, target, dir);
    ShiftedNames(fs, if Absolute(target) then [] else dir, Components(target), 1, x, m);
  }
}

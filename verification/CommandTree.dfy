/** Command trees as the CLI framework builds them: addresses, paths, and the list of all paths. */
module CommandTree {
  datatype Tree<T> = Node(data: T, subs: seq<Tree<T>>)

  /** A way down the tree: which child to take at every level. */
  type Address = seq<nat>

  predicate In<T>(t: Tree<T>, at: Address)
    decreases |at|
  {
    at == [] || (at[0] < |t.subs| && In(t.subs[at[0]], at[1..]))
  }

  function At<T>(t: Tree<T>, at: Address): Tree<T>
    requires In(t, at)
    decreases |at|
  {
    if at == [] then t else At(t.subs[at[0]], at[1..])
  }

  /** CommandPath of the command at an address, `path` being the one of `t`. */
  function PathAt<T>(name: T -> string, t: Tree<T>, path: string, at: Address): string
    requires In(t, at)
    decreases |at|
  {
    if at == [] then path else PathAt(name, t.subs[at[0]], path + " " + name(t.subs[at[0]].data), at[1..])
  }

  /** The paths of `t` and of everything under it, a parent before its children. */
  function PathsOf<T>(name: T -> string, t: Tree<T>, path: string): seq<string> {
    [path] + PathsUnder(name, t.subs, path)
  }

  function PathsUnder<T>(name: T -> string, subs: seq<Tree<T>>, path: string): seq<string> {
    if subs == [] then []
    else PathsOf(name, subs[0], path + " " + name(subs[0].data)) + PathsUnder(name, subs[1..], path)
  }

  lemma {:induction false} PathsUnderSnoc<T>(name: T -> string, subs: seq<Tree<T>>, sub: Tree<T>, path: string)
    ensures PathsUnder(name, subs + [sub], path)
              == PathsUnder(name, subs, path) + PathsOf(name, sub, path + " " + name(sub.data))
  {
    if subs == [] {
      assert [] + [sub] == [sub] && [sub][1..] == [];
      assert PathsUnder(name, [sub], path) == PathsOf(name, sub, path + " " + name(sub.data)) + [];
    } else {
      assert (subs + [sub])[1..] == subs[1..] + [sub];
      PathsUnderSnoc(name, subs[1..], sub, path);
    }
  }

  /** commandPaths */
  method CommandPaths<T>(name: T -> string, t: Tree<T>, path: string) returns (paths: seq<string>)
    ensures paths == PathsOf(name, t, path)
    decreases t
  {
    paths := [path];
    for i := 0 to |t.subs|
      invariant paths == [path] + PathsUnder(name, t.subs[..i], path)
    {
      var sub := t.subs[i];
      var below := CommandPaths(name, sub, path + " " + name(sub.data));
      PathsUnderSnoc(name, t.subs[..i], sub, path);
      assert t.subs[..i + 1] == t.subs[..i] + [sub];
      paths := paths + below;
    }
    assert t.subs[..|t.subs|] == t.subs;
  }

  /** The list holds the path of every command of the tree and nothing else. */
  lemma PathsAreTheCommands<T>(name: T -> string, t: Tree<T>, path: string, p: string)
    ensures p in PathsOf(name, t, path) <==> exists at :: In(t, at) && PathAt(name, t, path, at) == p
  {
    if p in PathsOf(name, t, path) {
      var at := FindPath(name, t, path, p);
    }
    forall at | In(t, at) && PathAt(name, t, path, at) == p
      ensures p in PathsOf(name, t, path)
    {
      PathIsListed(name, t, path, at);
    }
  }

  lemma {:induction false} PathIsListed<T>(name: T -> string, t: Tree<T>, path: string, at: Address)
    requires In(t, at)
    ensures PathAt(name, t, path, at) in PathsOf(name, t, path)
    decreases |at|
  {
    if at != [] {
      PathIsListed(name, t.subs[at[0]], path + " " + name(t.subs[at[0]].data), at[1..]);
      ChildIsListed(name, t.subs, path, at[0], PathAt(name, t, path, at));
    }
  }

  lemma {:induction false} ChildIsListed<T>(name: T -> string, subs: seq<Tree<T>>, path: string, i: nat, p: string)
    requires i < |subs| && p in PathsOf(name, subs[i], path + " " + name(subs[i].data))
    ensures p in PathsUnder(name, subs, path)
  {
    if i > 0 {
      ChildIsListed(name, subs[1..], path, i - 1, p);
    }
  }

  lemma {:induction false} FindPath<T>(name: T -> string, t: Tree<T>, path: string, p: string) returns (at: Address)
    requires p in PathsOf(name, t, path)
    ensures In(t, at) && PathAt(name, t, path, at) == p
    decreases t, 2
  {
    if p == path {
      at := [];
    } else {
      var i, rest := FindUnder(name, t, t.subs, 0, path, p);
      at := [i] + rest;
      assert at[1..] == rest;
    }
  }

  lemma {:induction false} FindUnder<T>(name: T -> string, t: Tree<T>, subs: seq<Tree<T>>, from: nat, path: string,
                                        p: string) returns (i: nat, rest: Address)
    requires from <= |t.subs| && subs == t.subs[from..] && p in PathsUnder(name, subs, path)
    ensures i < |t.subs| && In(t.subs[i], rest)
    ensures PathAt(name, t.subs[i], path + " " + name(t.subs[i].data), rest) == p
    decreases t, 1, |subs|
  {
    if p in PathsOf(name, subs[0], path + " " + name(subs[0].data)) {
      i := from;
      rest := FindPath(name, subs[0], path + " " + name(subs[0].data), p);
    } else {
      i, rest := FindUnder(name, t, subs[1..], from + 1, path, p);
    }
  }

  /** A child's path is its parent's path, a space and its own name. */
  lemma {:induction false} PathOfChild<T>(name: T -> string, t: Tree<T>, path: string, at: Address, i: nat)
    requires In(t, at) && i < |At(t, at).subs|
    ensures In(t, at + [i]) && At(t, at + [i]) == At(t, at).subs[i]
    ensures PathAt(name, t, path, at + [i]) == PathAt(name, t, path, at) + " " + name(At(t, at).subs[i].data)
    decreases |at|
  {
    if at == [] {
      assert [] + [i] == [i] && [i][1..] == [];
    } else {
      assert (at + [i])[1..] == at[1..] + [i];
      PathOfChild(name, t.subs[at[0]], path + " " + name(t.subs[at[0]].data), at[1..], i);
    }
  }
}

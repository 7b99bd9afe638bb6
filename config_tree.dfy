/**
 * The dashboard's configuration: a nested dict of string keys whose leaves
 * are numbers, strings and lists, together with the key-path update that
 * main.py (`update_nested_dict`) and service_configuration.py (`update_config`)
 * perform on it.
 */
module ConfigTree {
  import opened Wrappers

  /** A Python value held in the configuration dict. */
  datatype Tree =
    | Num(x: real)
    | Text(s: string)
    | Items(elems: seq<Tree>)
    | Node(children: map<string, Tree>)

  /** `t[k]`: a missing key raises KeyError, subscripting a non-dict with a string raises TypeError. */
  function Get(t: Tree, k: string): (r: Result<Tree>)
    ensures r.Ok? <==> t.Node? && k in t.children
    ensures r.Ok? ==> r.value == t.children[k]
  {
    if !t.Node? then Err(TypeError)
    else if k in t.children then Ok(t.children[k])
    else Err(KeyError(k))
  }

  /** `t[p0][p1]...[pn]`, failing at the first lookup that fails. */
  function GetPath(t: Tree, path: seq<string>): (r: Result<Tree>)
    ensures path == [] ==> r == Ok(t)
    ensures r.Err? ==> r.error == TypeError || (r.error.KeyError? && r.error.key in path)
    decreases |path|
  {
    if path == [] then Ok(t)
    else
      match Get(t, path[0])
      case Ok(c) => GetPath(c, path[1..])
      case Err(e) => Err(e)
  }

  /** The number stored at `path`; a non-number there fails as Python arithmetic on it would. */
  function GetNum(t: Tree, path: seq<string>): (r: Result<real>)
    ensures r.Ok? <==> GetPath(t, path).Ok? && GetPath(t, path).value.Num?
    ensures r.Ok? ==> GetPath(t, path).value == Num(r.value)
  {
    match GetPath(t, path)
    case Ok(v) => if v.Num? then Ok(v.x) else Err(TypeError)
    case Err(e) => Err(e)
  }

  /** A value as it enters Python arithmetic: anything but a number raises TypeError there. */
  function AsNumber(v: Tree): (r: Result<real>)
    ensures r.Ok? <==> v.Num?
    ensures r.Ok? ==> v == Num(r.value)
  {
    if v.Num? then Ok(v.x) else Err(TypeError)
  }

  /**
   * The two operands of a product `a * b`, both looked up before they are
   * multiplied: a non-number fails only once both lookups went through.
   */
  function Factors(a: Tree, b: Tree): (r: Result<(real, real)>)
    ensures r.Ok? <==> a.Num? && b.Num?
    ensures r.Ok? ==> a == Num(r.value.0) && b == Num(r.value.1)
  {
    var x :- AsNumber(a);
    var y :- AsNumber(b);
    Ok((x, y))
  }

  /** `t.get(k, default)`: only dicts have `get`. */
  function GetOr(t: Tree, k: string, default: Tree): (r: Result<Tree>)
    ensures t.Node? <==> r.Ok?
    ensures t.Node? && k in t.children ==> r == Ok(t.children[k])
    ensures t.Node? && k !in t.children ==> r == Ok(default)
  {
    if !t.Node? then Err(AttributeError)
    else if k in t.children then Ok(t.children[k])
    else Ok(default)
  }

  /** What a successful lookup of `path` finds; None when any step fails. */
  function Lookup(t: Tree, path: seq<string>): Option<Tree>
  {
    match GetPath(t, path)
    case Ok(v) => Some(v)
    case Err(_) => None
  }

  /**
   * The tree after `for k in keys[:-1]: d = d.setdefault(k, {})` followed by
   * `d[keys[-1]] = value`. `setdefault` on a non-dict raises AttributeError, the
   * final item assignment into a non-dict raises TypeError. A failure can only
   * happen at a key that already existed, so no dict has been created by then
   * and the tree is left as it was.
   */
  function SetPath(t: Tree, keys: seq<string>, v: Tree): (r: Result<Tree>)
    requires |keys| > 0
    ensures r.Ok? ==> r.value.Node?
    ensures r.Err? ==> r.error == TypeError || r.error == AttributeError
    decreases |keys|
  {
    if !t.Node? then Err(if |keys| == 1 then TypeError else AttributeError)
    else if |keys| == 1 then Ok(Node(t.children[keys[0] := v]))
    else
      var child := if keys[0] in t.children then t.children[keys[0]] else Node(map[]);
      match SetPath(child, keys[1..], v)
      case Ok(c) => Ok(Node(t.children[keys[0] := c]))
      case Err(e) => Err(e)
  }

  /** A lookup result that lets the walk go on: a dict, or a key that is not there yet. */
  predicate DictOrMissing(r: Result<Tree>)
  {
    (r.Ok? && r.value.Node?) || (r.Err? && r.error.KeyError?)
  }

  /** Every proper prefix of `keys` leads to a dict or to nothing. */
  ghost predicate DictsAlong(t: Tree, keys: seq<string>)
  {
    forall i :: 0 <= i < |keys| ==> DictOrMissing(GetPath(t, keys[..i]))
  }

  lemma {:induction false} GetPathMissing(t: Tree, keys: seq<string>, i: nat)
    requires t.Node? && |keys| > 0 && keys[0] !in t.children
    requires 0 < i <= |keys|
    ensures GetPath(t, keys[..i]) == Err(KeyError(keys[0]))
  {
    assert keys[..i][0] == keys[0];
  }

  lemma {:induction false} GetPathStep(t: Tree, keys: seq<string>, i: nat)
    requires t.Node? && |keys| > 0 && keys[0] in t.children
    requires 0 < i <= |keys|
    ensures GetPath(t, keys[..i]) == GetPath(t.children[keys[0]], keys[1..][..i - 1])
  {
    assert keys[..i][0] == keys[0];
    assert keys[..i][1..] == keys[1..][..i - 1];
  }

  lemma {:induction false} GetPathEmptyDict(p: seq<string>)
    requires |p| > 0
    ensures GetPath(Node(map[]), p) == Err(KeyError(p[0]))
  {
  }

  /** The update succeeds exactly when every prefix of the path is a dict or absent. */
  lemma {:induction false} SetPathOkIff(t: Tree, keys: seq<string>, v: Tree)
    requires |keys| > 0
    ensures SetPath(t, keys, v).Ok? <==> DictsAlong(t, keys)
    decreases |keys|
  {
    assert keys[..0] == [];
    if !t.Node? {
      assert !DictOrMissing(GetPath(t, keys[..0]));
    } else if |keys| > 1 {
      if keys[0] in t.children {
        var c := t.children[keys[0]];
        SetPathOkIff(c, keys[1..], v);
        if DictsAlong(c, keys[1..]) {
          forall i | 0 <= i < |keys| ensures DictOrMissing(GetPath(t, keys[..i])) {
            if i > 0 { GetPathStep(t, keys, i); }
          }
        } else {
          var i :| 0 <= i < |keys[1..]| && !DictOrMissing(GetPath(c, keys[1..][..i]));
          GetPathStep(t, keys, i + 1);
          assert !DictOrMissing(GetPath(t, keys[..i + 1]));
        }
      } else {
        SetPathFreshOk(keys[1..], v);
        forall i | 0 <= i < |keys| ensures DictOrMissing(GetPath(t, keys[..i])) {
          if i > 0 { GetPathMissing(t, keys, i); }
        }
      }
    }
  }

  /** A dict created by `setdefault` never blocks the rest of the walk. */
  lemma {:induction false} SetPathFreshOk(keys: seq<string>, v: Tree)
    requires |keys| > 0
    ensures SetPath(Node(map[]), keys, v).Ok?
    decreases |keys|
  {
    if |keys| > 1 { SetPathFreshOk(keys[1..], v); }
  }

  /** After a successful update the full path yields the assigned value. */
  lemma {:induction false} LookupAfterSetPath(t: Tree, keys: seq<string>, v: Tree)
    requires |keys| > 0 && SetPath(t, keys, v).Ok?
    ensures GetPath(SetPath(t, keys, v).value, keys) == Ok(v)
    decreases |keys|
  {
    if |keys| > 1 {
      var child := if keys[0] in t.children then t.children[keys[0]] else Node(map[]);
      LookupAfterSetPath(child, keys[1..], v);
    }
  }

  /**
   * Every path that leaves `keys` at some position `j` (a sibling at level `j`
   * or anything under it) finds the same value before and after the update,
   * and finds nothing after it when it found nothing before.
   */
  lemma {:induction false} OffPathUnchanged(t: Tree, keys: seq<string>, v: Tree, p: seq<string>, j: nat)
    requires |keys| > 0 && SetPath(t, keys, v).Ok?
    requires j < |p| && j < |keys| && p[..j] == keys[..j] && p[j] != keys[j]
    ensures Lookup(SetPath(t, keys, v).value, p) == Lookup(t, p)
    decreases |keys|
  {
    var t' := SetPath(t, keys, v).value;
    if j == 0 {
      assert Get(t', p[0]) == Get(t, p[0]);
    } else {
      var child := if keys[0] in t.children then t.children[keys[0]] else Node(map[]);
      var c' := SetPath(child, keys[1..], v).value;
      assert p[0] == keys[0] by { assert p[..j][0] == keys[..j][0]; }
      assert p[1..][..j - 1] == keys[1..][..j - 1] by {
        assert p[1..][..j - 1] == p[..j][1..];
        assert keys[1..][..j - 1] == keys[..j][1..];
      }
      OffPathUnchanged(child, keys[1..], v, p[1..], j - 1);
      assert Lookup(c', p[1..]) == Lookup(child, p[1..]);
      if keys[0] !in t.children {
        GetPathEmptyDict(p[1..]);
      }
    }
  }

  /**
   * At every level `i` of the path the dict reached is the old one with just
   * the entry `keys[i]` written: a missing level becomes a new dict holding only
   * that entry, an existing dict keeps all its other entries.
   */
  lemma {:induction false} SetPathLevel(t: Tree, keys: seq<string>, v: Tree, i: nat)
    requires |keys| > 0 && SetPath(t, keys, v).Ok? && i < |keys|
    ensures var after := Lookup(SetPath(t, keys, v).value, keys[..i]);
            && after.Some? && after.value.Node? && keys[i] in after.value.children
            && (Lookup(t, keys[..i]).None? ==> after.value.children.Keys == {keys[i]})
            && (Lookup(t, keys[..i]).Some? ==>
                  Lookup(t, keys[..i]).value.Node? &&
                  after.value.children ==
                    Lookup(t, keys[..i]).value.children[keys[i] := after.value.children[keys[i]]])
    decreases |keys|
  {
    assert keys[..0] == [];
    if i > 0 {
      var child := if keys[0] in t.children then t.children[keys[0]] else Node(map[]);
      SetPathLevel(child, keys[1..], v, i - 1);
      var t' := SetPath(t, keys, v).value;
      GetPathStep(t', keys, i);
      if keys[0] in t.children {
        GetPathStep(t, keys, i);
      } else {
        GetPathMissing(t, keys, i);
        if i - 1 > 0 { GetPathEmptyDict(keys[1..][..i - 1]); }
        assert keys[1..][..0] == [];
      }
    }
  }

  /** Writing the same value along the same path a second time changes nothing. */
  lemma {:induction false} SetPathIdempotent(t: Tree, keys: seq<string>, v: Tree)
    requires |keys| > 0 && SetPath(t, keys, v).Ok?
    ensures SetPath(SetPath(t, keys, v).value, keys, v) == SetPath(t, keys, v)
    decreases |keys|
  {
    var t' := SetPath(t, keys, v).value;
    if |keys| == 1 {
      assert t'.children[keys[0] := v] == t'.children;
    } else {
      var child := if keys[0] in t.children then t.children[keys[0]] else Node(map[]);
      SetPathIdempotent(child, keys[1..], v);
      var c := SetPath(child, keys[1..], v).value;
      assert t'.children[keys[0]] == c;
      assert t'.children[keys[0] := c] == t'.children;
    }
  }

  /** Writing back the value a path already holds leaves the tree as it was. */
  lemma {:induction false} SetPathSame(t: Tree, keys: seq<string>, v: Tree)
    requires |keys| > 0 && GetPath(t, keys) == Ok(v)
    ensures SetPath(t, keys, v) == Ok(t)
    decreases |keys|
  {
    if |keys| == 1 {
      assert t.children[keys[0] := v] == t.children;
    } else {
      var child := t.children[keys[0]];
      SetPathSame(child, keys[1..], v);
      assert t.children[keys[0] := child] == t.children;
    }
  }

  /** The dicts passed on the way down, rebuilt around a new innermost dict. */
  function Rebuild(spine: seq<map<string, Tree>>, keys: seq<string>, inner: Tree): Tree
    requires |spine| <= |keys|
    decreases |spine|
  {
    if spine == [] then inner
    else
      var n := |spine| - 1;
      Rebuild(spine[..n], keys, Node(spine[n][keys[n] := inner]))
  }

  function Wrap(spine: seq<map<string, Tree>>, keys: seq<string>, r: Result<Tree>): Result<Tree>
    requires |spine| <= |keys|
  {
    match r
    case Ok(inner) => Ok(Rebuild(spine, keys, inner))
    case Err(e) => Err(e)
  }

  lemma RebuildSnoc(spine: seq<map<string, Tree>>, m: map<string, Tree>, keys: seq<string>, r: Result<Tree>)
    requires |spine| < |keys|
    ensures Wrap(spine + [m], keys, r) ==
            match r
            case Ok(inner) => Ok(Rebuild(spine, keys, Node(m[keys[|spine|] := inner])))
            case Err(e) => Err(e)
  {
    assert (spine + [m])[..|spine|] == spine;
  }

  /** A dict object whose nested entries are updated in place along a key path. */
  class ConfigDict {
    var root: Tree

    constructor (t: Tree)
      ensures root == t
    {
      root := t;
    }

    /** main.py `update_nested_dict(d, keys, value)`. */
    method UpdateNestedDict(keys: seq<string>, value: Tree) returns (err: Option<Error>)
      requires |keys| > 0
      modifies this
      ensures SetPath(old(root), keys, value).Ok? ==>
                err == None && root == SetPath(old(root), keys, value).value
      ensures SetPath(old(root), keys, value).Err? ==>
                err == Some(SetPath(old(root), keys, value).error) && root == old(root)
    {
      var spine: seq<map<string, Tree>> := [];
      var d := root;
      var i := 0;
      while i < |keys| - 1
        invariant 0 <= i <= |keys| - 1
        invariant |spine| == i && root == old(root)
        invariant SetPath(root, keys, value) == Wrap(spine, keys, SetPath(d, keys[i..], value))
      {
        if !d.Node? {
          err := Some(AttributeError);
          return;
        }
        assert keys[i..][0] == keys[i] && keys[i..][1..] == keys[i + 1..];
        var child := if keys[i] in d.children then d.children[keys[i]] else Node(map[]);
        RebuildSnoc(spine, d.children, keys, SetPath(child, keys[i + 1..], value));
        spine := spine + [d.children];
        d := if keys[i] in d.children then d.children[keys[i]] else Node(map[]);
        i := i + 1;
      }
      if !d.Node? {
        err := Some(TypeError);
        return;
      }
      assert keys[i..] == [keys[i]];
      var t := Node(d.children[keys[i] := value]);
      ghost var inner := t;
      var j := i;
      assert spine[..j] == spine;
      while j > 0
        invariant 0 <= j <= i && root == old(root)
        invariant Rebuild(spine, keys, inner) == Rebuild(spine[..j], keys, t)
      {
        j := j - 1;
        assert spine[..j + 1][..j] == spine[..j];
        t := Node(spine[j][keys[j] := t]);
      }
      root := t;
      err := None;
    }
  }

  /** Python `s.split(sep)`: always at least one piece, none containing `sep`. */
  function Split(s: string, sep: char): (r: seq<string>)
    ensures |r| >= 1
    ensures forall i :: 0 <= i < |r| ==> sep !in r[i]
  {
    if s == [] then [""]
    else
      var rest := Split(s[1..], sep);
      if s[0] == sep then [""] + rest
      else [[s[0]] + rest[0]] + rest[1..]
  }

  /** Python `sep.join(parts)`. */
  function Join(parts: seq<string>, sep: char): string
    requires |parts| >= 1
  {
    if |parts| == 1 then parts[0] else parts[0] + [sep] + Join(parts[1..], sep)
  }

  /** Joining the pieces of a split gives the key back. */
  lemma {:induction false} JoinSplit(s: string, sep: char)
    ensures Join(Split(s, sep), sep) == s
  {
    if s != [] {
      JoinSplit(s[1..], sep);
      var rest := Split(s[1..], sep);
      if s[0] != sep {
        if |rest| == 1 {
          assert Join(rest, sep) == rest[0];
        } else {
          assert [[s[0]] + rest[0]] + rest[1..] == [[s[0]] + rest[0]] + rest[1..];
          assert Join(rest, sep) == rest[0] + [sep] + Join(rest[1..], sep);
        }
        assert s == [s[0]] + s[1..];
      }
    }
  }

  /** Splitting a joined key gives back the segments it was joined from. */
  lemma {:induction false} SplitJoin(parts: seq<string>, sep: char)
    requires |parts| >= 1
    requires forall i :: 0 <= i < |parts| ==> sep !in parts[i]
    ensures Split(Join(parts, sep), sep) == parts
    decreases |parts|, |parts[0]|
  {
    var p := parts[0];
    if |parts| == 1 {
      SplitNoSep(p, sep);
    } else if p == [] {
      SplitJoin(parts[1..], sep);
      assert Join(parts, sep) == [sep] + Join(parts[1..], sep);
      assert Join(parts, sep)[1..] == Join(parts[1..], sep);
    } else {
      var shorter := [p[1..]] + parts[1..];
      assert sep !in p[1..] by { assert forall c :: c in p[1..] ==> c in p; }
      SplitJoin(shorter, sep);
      assert shorter[1..] == parts[1..];
      assert Join(parts, sep) == [p[0]] + Join(shorter, sep);
      assert Join(parts, sep)[1..] == Join(shorter, sep);
      assert p == [p[0]] + p[1..];
    }
  }

  lemma {:induction false} SplitNoSep(s: string, sep: char)
    requires sep !in s
    ensures Split(s, sep) == [s]
  {
    if s != [] {
      assert sep !in s[1..] by { assert forall c :: c in s[1..] ==> c in s; }
      SplitNoSep(s[1..], sep);
      assert s == [s[0]] + s[1..];
    }
  }
}

/**
 * The flat-key parser `parse_response` (src/axis_exporter/exporter.py:31-56):
 * the camera answers with lines `dotted.key=value`, and the parser builds
 * nested dictionaries from them.
 *
 * Python dictionaries remember insertion order, and the exporter's metric
 * loops run in that order, so a dictionary is modelled as an association
 * list: `Put` overwrites an existing key where it stands and appends a new
 * key at the end.
 */
module FlatKey {
  import opened Wrappers
  import opened Text

  /** A parsed value: the trimmed string of a line, or a nested dictionary. */
  datatype Tree = Leaf(value: string) | Node(entries: Dict)

  datatype Entry = Entry(key: string, tree: Tree)

  type Dict = seq<Entry>

  /** Why `parse_response` raises. */
  datatype ParseError =
    | NoDelimiter(line: string)    // `key, value = line.split('=', 1)` raises ValueError
    | NotADict(component: string)  // a component on the way down holds a string: TypeError

  function Keys(d: Dict): (ks: seq<string>)
    ensures |ks| == |d| && forall i :: 0 <= i < |d| ==> ks[i] == d[i].key
  {
    if d == [] then [] else [d[0].key] + Keys(d[1..])
  }

  /** Python `d[k]` where it succeeds, `None` where it raises KeyError. */
  function Get(d: Dict, k: string): (r: Option<Tree>)
    ensures r.None? ==> forall i :: 0 <= i < |d| ==> d[i].key != k
  {
    if d == [] then None
    else if d[0].key == k then Some(d[0].tree)
    else Get(d[1..], k)
  }

  /**
   * `d[k]` is found exactly when `k` is a key of `d`, and it is the tree of
   * the first entry with that key.
   */
  lemma {:induction false} GetFinds(d: Dict, k: string)
    ensures Get(d, k).Some? <==> k in Keys(d)
    ensures Get(d, k).Some? ==> exists i :: 0 <= i < |d| && d[i] == Entry(k, Get(d, k).value) && forall j :: 0 <= j < i ==> d[j].key != k
  {
    if d != [] && d[0].key != k {
      GetFinds(d[1..], k);
      assert Keys(d) == [d[0].key] + Keys(d[1..]);
      if Get(d, k).Some? {
        var i :| 0 <= i < |d| - 1 && d[1..][i] == Entry(k, Get(d, k).value) && forall j :: 0 <= j < i ==> d[1..][j].key != k;
        assert d[i + 1] == Entry(k, Get(d, k).value);
        assert forall j :: 0 <= j < i + 1 ==> d[j].key != k by {
          forall j | 0 <= j < i + 1 ensures d[j].key != k {
            if j > 0 { assert d[j] == d[1..][j - 1]; }
          }
        }
      }
    } else if d != [] {
      assert d[0] == Entry(k, Get(d, k).value);
    }
  }

  /** Python `d[k] = t`: an existing key keeps its place, a new key goes last. */
  function Put(d: Dict, k: string, t: Tree): (r: Dict)
    ensures Get(r, k) == Some(t)
    ensures forall k' :: k' != k ==> Get(r, k') == Get(d, k')
    ensures Keys(r) == if k in Keys(d) then Keys(d) else Keys(d) + [k]
  {
    if d == [] then
      var r := [Entry(k, t)];
      assert r[1..] == [];
      r
    else if d[0].key == k then
      var r := [Entry(k, t)] + d[1..];
      assert r[1..] == d[1..];
      assert Keys(r) == Keys(d);
      r
    else
      var rest := Put(d[1..], k, t);
      var r := [d[0]] + rest;
      assert r[1..] == rest;
      assert Keys(r) == [d[0].key] + Keys(rest);
      assert (k in Keys(d)) == (k in Keys(d[1..]));
      if k in Keys(d) then r
      else
        assert Keys(r) == [d[0].key] + (Keys(d[1..]) + [k]) == Keys(d) + [k];
        r
  }

  /** The value reached by following `path` down from `t`, if there is one. */
  function At(t: Tree, path: seq<string>): Option<Tree>
    decreases |path|
  {
    if path == [] then Some(t)
    else match t
      case Leaf(_) => None
      case Node(d) =>
        match Get(d, path[0])
        case None => None
        case Some(child) => At(child, path[1..])
  }

  /** Two key paths are comparable when one is a prefix of the other. */
  predicate Comparable(p: seq<string>, q: seq<string>) {
    p <= q || q <= p
  }

  /** Some component strictly above the end of `path` already holds a string. */
  predicate Blocked(d: Dict, path: seq<string>) {
    exists i :: 1 <= i < |path| && At(Node(d), path[..i]).Some? && At(Node(d), path[..i]).value.Leaf?
  }

  /**
   * The descent of exporter.py:47-54: walk `path` down from `d`, creating
   * an empty dictionary for each missing component and reusing each
   * existing one, then store `v` at the last component.
   */
  function Assign(d: Dict, path: seq<string>, v: string): (r: Result<Dict, ParseError>)
    requires |path| >= 1
    ensures r.Err? ==> r.error.NotADict? && r.error.component in path[..|path| - 1]
    decreases |path|
  {
    if |path| == 1 then Ok(Put(d, path[0], Leaf(v)))
    else
      match Get(d, path[0])
      case Some(Leaf(_)) => Err(NotADict(path[0]))
      case Some(Node(sub)) =>
        var sub' :- Assign(sub, path[1..], v);
        Ok(Put(d, path[0], Node(sub')))
      case None =>
        var sub' :- Assign([], path[1..], v);
        Ok(Put(d, path[0], Node(sub')))
  }

  /** What one line of the response asks for. */
  datatype LineParse =
    | Store(key: string, value: string)  // the untrimmed key and the trimmed value
    | Malformed(line: string)            // no `=`: the unpacking at exporter.py:41 raises
  {
    /** The key path `key.split('.')` (exporter.py:42). */
    function Path(): seq<string>
      requires Store?
    {
      Split(key, '.')
    }
  }

  /**
   * One line read as exporter.py:41-44 reads it: `key, value =
   * line.split('=', 1)`, the key kept as it is and the value trimmed.
   */
  function Classify(line: string): (r: LineParse)
    ensures r.Malformed? <==> '=' !in line
    ensures r.Malformed? ==> r.line == line
    ensures r.Store? ==> '=' !in r.key && |r.key| < |line| && line[..|r.key|] == r.key && line[|r.key|] == '='
  {
    match SplitOnce(line, '=')
    case None => Malformed(line)
    case Some((key, value)) =>
      assert line[..|key|] == key;
      Store(key, Strip(value))
  }

  /** Carry out one line on the dictionary built so far. */
  function Step(d: Dict, p: LineParse): Result<Dict, ParseError> {
    match p
    case Malformed(line) => Err(NoDelimiter(line))
    case Store(_, value) => Assign(d, p.Path(), value)
  }

  /**
   * The loop of exporter.py:39-54 from the dictionary `d` on: each line
   * carried out in order, the first error ending the parse.
   */
  function ParseFrom(d: Dict, lines: seq<string>): (r: Result<Dict, ParseError>)
    ensures r.Err? && r.error.NoDelimiter? ==> r.error.line in lines && Classify(r.error.line).Malformed?
    decreases |lines|
  {
    if lines == [] then Ok(d)
    else
      match Step(d, Classify(lines[0]))
      case Err(e) => Err(e)
      case Ok(d') =>
        assert forall i :: 1 <= i < |lines| ==> lines[i] == lines[1..][i - 1];
        ParseFrom(d', lines[1..])
  }

  function ParseLines(lines: seq<string>): Result<Dict, ParseError> {
    ParseFrom([], lines)
  }

  /** `response.strip().split('\n')`: never empty, and blank lines are kept. */
  function Lines(response: string): (lines: seq<string>)
    ensures |lines| >= 1 && Join(lines, '\n') == Strip(response)
    ensures forall i :: 0 <= i < |lines| ==> '\n' !in lines[i]
  {
    Split(Strip(response), '\n')
  }

  /** What `parse_response(response)` returns or raises. */
  function Parse(response: string): (r: Result<Dict, ParseError>)
    ensures r.Err? && r.error.NoDelimiter? ==> r.error.line in Lines(response) && Classify(r.error.line).Malformed?
  {
    ParseLines(Lines(response))
  }

  /** `parse_response`: the loop over the lines of exporter.py:39-54. */
  method ParseResponse(response: string) returns (r: Result<Dict, ParseError>)
    ensures r == Parse(response)
  {
    var lines := Split(Strip(response), '\n');
    var data: Dict := [];
    var i := 0;
    while i < |lines|
      invariant 0 <= i <= |lines|
      invariant ParseFrom(data, lines[i..]) == Parse(response)
    {
      var line := lines[i];
      assert lines[i..][0] == line && lines[i..][1..] == lines[i + 1..];
      match SplitOnce(line, '=')
      case None =>
        return Err(NoDelimiter(line));
      case Some((key, value)) =>
        var components := Split(key, '.');
        match Assign(data, components, Strip(value))
        case Err(e) =>
          return Err(e);
        case Ok(data') =>
          data := data';
      i := i + 1;
    }
    r := Ok(data);
  }

  /** Parsing `a + b` parses `a`, then parses `b` from where `a` left off. */
  lemma {:induction false} ParseAppend(d: Dict, a: seq<string>, b: seq<string>)
    ensures ParseFrom(d, a + b) == if ParseFrom(d, a).Err? then ParseFrom(d, a) else ParseFrom(ParseFrom(d, a).value, b)
    decreases |a|
  {
    if a == [] {
      assert a + b == b;
    } else {
      assert (a + b)[0] == a[0] && (a + b)[1..] == a[1..] + b;
      match Step(d, Classify(a[0]))
      case Err(_) =>
      case Ok(d') =>
        ParseAppend(d', a[1..], b);
    }
  }

  // ---------------------------------------------------------------------
  // The descent: when it fails, what it stores, what it leaves alone.
  // ---------------------------------------------------------------------

  /** Following a path through `Put(d, k, t)` only differs from `d` below `k`. */
  lemma AtPut(d: Dict, k: string, t: Tree, q: seq<string>)
    requires |q| >= 1
    ensures At(Node(Put(d, k, t)), q) == if q[0] == k then At(t, q[1..]) else At(Node(d), q)
  {
  }

  /** Below the first component, a path through `d` continues in that component's dictionary. */
  lemma AtChild(d: Dict, sub: Dict, path: seq<string>, i: nat)
    requires 1 <= i <= |path| && Get(d, path[0]) == Some(Node(sub))
    ensures At(Node(d), path[..i]) == At(Node(sub), path[1..][..i - 1])
  {
    assert path[..i][1..] == path[1..][..i - 1];
  }

  /** Nothing below a missing component exists. */
  lemma AtMissing(d: Dict, path: seq<string>, i: nat)
    requires 1 <= i <= |path| && Get(d, path[0]).None?
    ensures At(Node(d), path[..i]).None?
  {
  }

  /** The descent fails exactly when a component strictly above the last one holds a string. */
  lemma {:induction false} AssignFails(d: Dict, path: seq<string>, v: string)
    requires |path| >= 1
    ensures Assign(d, path, v).Err? <==> Blocked(d, path)
    decreases |path|
  {
    if |path| > 1 {
      var c := path[0];
      match Get(d, c)
      case Some(Leaf(_)) =>
        assert path[..1] == [c];
        assert At(Node(d), path[..1]) == Some(Get(d, c).value);
      case Some(Node(sub)) =>
        AssignFails(sub, path[1..], v);
        if Blocked(d, path) {
          var i :| 1 <= i < |path| && At(Node(d), path[..i]).Some? && At(Node(d), path[..i]).value.Leaf?;
          AtChild(d, sub, path, i);
          assert i > 1;
          assert At(Node(sub), path[1..][..i - 1]).value.Leaf?;
        }
        if Blocked(sub, path[1..]) {
          var i :| 1 <= i < |path| - 1 && At(Node(sub), path[1..][..i]).Some? && At(Node(sub), path[1..][..i]).value.Leaf?;
          AtChild(d, sub, path, i + 1);
        }
      case None =>
        AssignFails([], path[1..], v);
        forall i | 1 <= i < |path| ensures At(Node(d), path[..i]).None? {
          AtMissing(d, path, i);
        }
        forall i | 1 <= i < |path| - 1 ensures At(Node([]), path[1..][..i]).None? {
        }
    }
  }

  /** A successful descent leaves the value at the end of the path. */
  lemma {:induction false} AssignStores(d: Dict, path: seq<string>, v: string)
    requires |path| >= 1 && Assign(d, path, v).Ok?
    ensures At(Node(Assign(d, path, v).value), path) == Some(Leaf(v))
    decreases |path|
  {
    if |path| > 1 {
      match Get(d, path[0])
      case Some(Node(sub)) =>
        AssignStores(sub, path[1..], v);
      case None =>
        AssignStores([], path[1..], v);
    }
  }

  /**
   * A successful descent changes nothing at a path that is neither above
   * nor below the assigned one: sibling entries survive.
   */
  lemma {:induction false} AssignKeepsOthers(d: Dict, path: seq<string>, v: string, q: seq<string>)
    requires |path| >= 1 && Assign(d, path, v).Ok?
    requires !Comparable(q, path)
    ensures At(Node(Assign(d, path, v).value), q) == At(Node(d), q)
    decreases |path|
  {
    var c := path[0];
    assert q != [];
    if q[0] == c {
      assert path[..1] <= q && q[..1] <= path;
      PrefixTail(q, path);
      PrefixTail(path, q);
      match Get(d, c)
      case Some(Node(sub)) =>
        AssignKeepsOthers(sub, path[1..], v, q[1..]);
      case None =>
        AssignKeepsOthers([], path[1..], v, q[1..]);
    } else {
      if |path| > 1 {
        match Get(d, c)
        case Some(Node(sub)) =>
        case None =>
      }
    }
  }

  /** Two paths with the same first component compare as their tails do. */
  lemma PrefixTail(x: seq<string>, y: seq<string>)
    requires x != [] && y != [] && x[0] == y[0]
    ensures (x <= y) == (x[1..] <= y[1..])
  {
    assert x == [x[0]] + x[1..] && y == [y[0]] + y[1..];
  }

  /** The dictionary found at `p` below `d`; a missing one counts as the new empty dictionary. */
  function DictAt(d: Dict, p: seq<string>): Dict {
    match At(Node(d), p)
    case Some(Node(es)) => es
    case _ => []
  }

  /**
   * After storing through `p` into `d` with result `r`, the dictionary at
   * `p` is the old one (or a new empty one) with its keys in their old
   * order, plus `k` at the end if it was missing.
   */
  predicate ReusedAt(d: Dict, r: Dict, p: seq<string>, k: string) {
    var after := At(Node(r), p);
    var before := Keys(DictAt(d, p));
    && after.Some? && after.value.Node?
    && Keys(after.value.entries) == if k in before then before else before + [k]
  }

  /** The top dictionary keeps its keys in order, and gains the first component last if it was missing. */
  lemma AssignReusesTop(d: Dict, path: seq<string>, v: string)
    requires |path| >= 1 && Assign(d, path, v).Ok?
    ensures ReusedAt(d, Assign(d, path, v).value, path[..0], path[0])
  {
    assert path[..0] == [];
    assert DictAt(d, []) == d;
    if |path| > 1 {
      match Get(d, path[0])
      case Some(Node(sub)) =>
      case None =>
    }
  }

  /**
   * Every dictionary on the way down is reused, never replaced: after a
   * successful descent the dictionary at each proper prefix of the path
   * keeps its old keys in their old order.
   */
  lemma {:induction false} AssignReusesDicts(d: Dict, path: seq<string>, v: string, j: nat)
    requires |path| >= 1 && Assign(d, path, v).Ok?
    requires j < |path|
    ensures ReusedAt(d, Assign(d, path, v).value, path[..j], path[j])
    decreases |path|
  {
    var r := Assign(d, path, v).value;
    if j == 0 {
      AssignReusesTop(d, path, v);
    } else {
      var c, rest := path[0], path[1..];
      var es := match Get(d, c) case Some(Node(es)) => es case _ => [];
      assert Get(d, c).Some? ==> Get(d, c) == Some(Node(es));
      var rs := Assign(es, rest, v).value;
      assert r == Put(d, c, Node(rs));
      AssignReusesDicts(es, rest, v, j - 1);
      assert path[j] == rest[j - 1];
      ReusedBelow(d, es, rs, path, j);
    }
  }

  /** Reuse one level down carries over to the dictionary that holds it. */
  lemma ReusedBelow(d: Dict, es: Dict, rs: Dict, path: seq<string>, j: nat)
    requires 1 <= j < |path|
    requires Get(d, path[0]).Some? ==> Get(d, path[0]) == Some(Node(es))
    requires Get(d, path[0]).None? ==> es == []
    requires ReusedAt(es, rs, path[1..][..j - 1], path[j])
    ensures ReusedAt(d, Put(d, path[0], Node(rs)), path[..j], path[j])
  {
    AtChild(Put(d, path[0], Node(rs)), rs, path, j);
    if Get(d, path[0]).Some? {
      AtChild(d, es, path, j);
    } else {
      AtMissing(d, path, j);
      assert path[1..][..j - 1] == [] || At(Node([]), path[1..][..j - 1]).None?;
    }
    assert DictAt(d, path[..j]) == DictAt(es, path[1..][..j - 1]);
  }

  /** Storing twice at the same path is storing the second value once; failure ignores the value. */
  lemma {:induction false} AssignTwice(d: Dict, path: seq<string>, v1: string, v2: string)
    requires |path| >= 1
    ensures Assign(d, path, v1).Err? ==> Assign(d, path, v2) == Assign(d, path, v1)
    ensures Assign(d, path, v1).Ok? ==> Assign(Assign(d, path, v1).value, path, v2) == Assign(d, path, v2)
    decreases |path|
  {
    if |path| == 1 {
      PutTwice(d, path[0], Leaf(v1), Leaf(v2));
    } else {
      match Get(d, path[0])
      case Some(Leaf(_)) =>
      case Some(Node(sub)) =>
        AssignTwice(sub, path[1..], v1, v2);
        AssignFails(sub, path[1..], v1);
        AssignFails(sub, path[1..], v2);
        if Assign(sub, path[1..], v1).Ok? {
          PutTwice(d, path[0], Node(Assign(sub, path[1..], v1).value), Node(Assign(sub, path[1..], v2).value));
        }
      case None =>
        AssignTwice([], path[1..], v1, v2);
        AssignFails([], path[1..], v1);
        AssignFails([], path[1..], v2);
        if Assign([], path[1..], v1).Ok? {
          PutTwice(d, path[0], Node(Assign([], path[1..], v1).value), Node(Assign([], path[1..], v2).value));
        }
    }
  }

  /** Python `d[k] = a; d[k] = b` leaves the dict `d[k] = b` would. */
  lemma {:induction false} PutTwice(d: Dict, k: string, a: Tree, b: Tree)
    ensures Put(Put(d, k, a), k, b) == Put(d, k, b)
  {
    if d != [] && d[0].key != k {
      PutTwice(d[1..], k, a, b);
    }
  }

  // ---------------------------------------------------------------------
  // Whole responses.
  // ---------------------------------------------------------------------

  /**
   * Only the first `=` splits a line: the key is everything before it,
   * untrimmed, and the stored value is the rest, later `=` included, trimmed.
   */
  lemma FirstEqualsSplits(key: string, value: string)
    requires '=' !in key
    ensures Classify(key + "=" + value) == Store(key, Strip(value))
  {
    SplitOnceUnique(key, value, '=');
  }

  /**
   * A line without `=` makes the parse fail; when every earlier line was
   * stored, the error is that line's.
   */
  lemma NoDelimiterFails(lines: seq<string>, i: nat)
    requires i < |lines| && '=' !in lines[i]
    ensures ParseLines(lines).Err?
    ensures ParseLines(lines[..i]).Ok? ==> ParseLines(lines) == Err(NoDelimiter(lines[i]))
  {
    var rest := lines[i..];
    assert lines == lines[..i] + rest;
    assert rest[0] == lines[i];
    ParseAppend([], lines[..i], rest);
  }

  /** Empty or whitespace-only input is one empty line, which has no `=`: the parse fails. */
  lemma BlankResponseFails(response: string)
    requires AllSpace(response)
    ensures Lines(response) == [""]
    ensures Parse(response) == Err(NoDelimiter(""))
  {
    StripBlank(response);
    assert FirstIndex("", '\n').None?;
    NoDelimiterFails([""], 0);
  }

  /** A later line that writes at, above or below an earlier line's path. */
  predicate Overrides(later: LineParse, earlier: LineParse) {
    later.Store? && earlier.Store? && Comparable(later.Path(), earlier.Path())
  }

  /** What the j-th line asks for. */
  function LineAt(lines: seq<string>, j: nat): LineParse
    requires j < |lines|
  {
    Classify(lines[j])
  }

  /** No line after the i-th writes at, above or below the i-th line's key path. */
  predicate NotOverridden(lines: seq<string>, i: nat)
    requires i < |lines|
  {
    forall j :: i < j < |lines| ==> !Overrides(LineAt(lines, j), LineAt(lines, i))
  }

  /**
   * A line's value is what the parsed tree holds at its key path, unless a
   * later line writes at, above or below that path.
   */
  lemma {:induction false} LaterLineWins(d: Dict, lines: seq<string>, i: nat)
    requires ParseFrom(d, lines).Ok?
    requires i < |lines| && NotOverridden(lines, i)
    ensures Classify(lines[i]).Store?
    ensures At(Node(ParseFrom(d, lines).value), Classify(lines[i]).Path()) == Some(Leaf(Classify(lines[i]).value))
    decreases |lines|
  {
    var p := Classify(lines[0]);
    ParseFirst(d, lines);
    var d' := Step(d, p).value;
    if i == 0 {
      AssignStores(d, p.Path(), p.value);
      NotOverriddenFirst(lines);
      LaterLinesKeep(d', lines[1..], p);
    } else {
      NotOverriddenTail(lines, i);
      LaterLineWins(d', lines[1..], i - 1);
    }
  }

  /** A parse that succeeds carried out its first line, then the rest from there. */
  lemma ParseFirst(d: Dict, lines: seq<string>)
    requires lines != [] && ParseFrom(d, lines).Ok?
    ensures Classify(lines[0]).Store? && Step(d, Classify(lines[0])).Ok?
    ensures ParseFrom(d, lines) == ParseFrom(Step(d, Classify(lines[0])).value, lines[1..])
  {
  }

  lemma NotOverriddenFirst(lines: seq<string>)
    requires |lines| > 0 && NotOverridden(lines, 0)
    ensures forall j :: 0 <= j < |lines[1..]| ==> !Overrides(Classify(lines[1..][j]), Classify(lines[0]))
  {
    forall j | 0 <= j < |lines[1..]| ensures !Overrides(Classify(lines[1..][j]), Classify(lines[0])) {
      assert lines[1..][j] == lines[j + 1];
      assert !Overrides(LineAt(lines, j + 1), LineAt(lines, 0));
    }
  }

  lemma NotOverriddenTail(lines: seq<string>, i: nat)
    requires 0 < i < |lines| && NotOverridden(lines, i)
    ensures lines[1..][i - 1] == lines[i] && NotOverridden(lines[1..], i - 1)
  {
    forall j | i - 1 < j < |lines[1..]| ensures !Overrides(LineAt(lines[1..], j), LineAt(lines[1..], i - 1)) {
      assert lines[1..][j] == lines[j + 1];
      assert !Overrides(LineAt(lines, j + 1), LineAt(lines, i));
    }
  }

  /** Lines that do not write at, above or below a stored value leave it in place. */
  lemma {:induction false} LaterLinesKeep(d: Dict, lines: seq<string>, p: LineParse)
    requires p.Store? && At(Node(d), p.Path()) == Some(Leaf(p.value))
    requires ParseFrom(d, lines).Ok?
    requires forall j :: 0 <= j < |lines| ==> !Overrides(Classify(lines[j]), p)
    ensures At(Node(ParseFrom(d, lines).value), p.Path()) == Some(Leaf(p.value))
    decreases |lines|
  {
    if lines != [] {
      var q := Classify(lines[0]);
      assert !Overrides(q, p);
      AssignKeepsOthers(d, q.Path(), q.value, p.Path());
      forall j | 0 <= j < |lines[1..]| ensures !Overrides(Classify(lines[1..][j]), p) {
        assert lines[1..][j] == lines[j + 1];
      }
      LaterLinesKeep(Step(d, q).value, lines[1..], p);
    }
  }

  /** The same holds of the text: `key=v1` followed by `key=v2` is as if only `key=v2` were there. */
  lemma SameKeyLastWins(lines: seq<string>, key: string, v1: string, v2: string)
    requires '=' !in key
    ensures ParseLines(lines + [key + "=" + v1, key + "=" + v2]) == ParseLines(lines + [key + "=" + v2])
  {
    FirstEqualsSplits(key, v1);
    FirstEqualsSplits(key, v2);
    ClassifiedLastWins(lines, key + "=" + v1, key + "=" + v2);
  }

  /**
   * Last write wins: of two consecutive lines with the same key, the first
   * leaves no trace.
   */
  lemma ClassifiedLastWins(lines: seq<string>, line1: string, line2: string)
    requires Classify(line1).Store? && Classify(line2).Store? && Classify(line1).key == Classify(line2).key
    ensures ParseLines(lines + [line1, line2]) == ParseLines(lines + [line2])
  {
    ParseAppend([], lines, [line1, line2]);
    ParseAppend([], lines, [line2]);
    if ParseLines(lines).Ok? {
      var d, p1, p2 := ParseLines(lines).value, Classify(line1), Classify(line2);
      ParseTwoFrom(d, line1, line2);
      ParseOneFrom(d, line2);
      AssignTwice(d, p1.Path(), p1.value, p2.value);
    }
  }

  /** One line from `d`. */
  lemma ParseOneFrom(d: Dict, a: string)
    ensures ParseFrom(d, [a]) == Step(d, Classify(a))
  {
    assert [a][1..] == [];
  }

  /** Two lines from `d`: the second is carried out on what the first one gave. */
  lemma ParseTwoFrom(d: Dict, a: string, b: string)
    ensures ParseFrom(d, [a, b]) ==
            if Step(d, Classify(a)).Err? then Step(d, Classify(a))
            else Step(Step(d, Classify(a)).value, Classify(b))
  {
    assert [a, b][1..] == [b];
    if Step(d, Classify(a)).Ok? {
      ParseOneFrom(Step(d, Classify(a)).value, b);
    }
  }

  /** The lines of a response that has no whitespace at its start and one newline at its end. */
  lemma TwoLineResponse(a: string, b: string)
    requires a != [] && b != [] && !IsSpace(a[0]) && !IsSpace(b[|b| - 1])
    requires '\n' !in a && '\n' !in b
    ensures Lines(a + "\n" + b + "\n") == [a, b]
  {
    var response := a + "\n" + b + "\n";
    var body := a + "\n" + b;
    assert response == body + "\n";
    assert body[0] == a[0] && body[|body| - 1] == b[|b| - 1];
    StripFinalNewline(body);
    SplitJoin([a, b], '\n');
  }

  /** A key component the examples use: no `.`, `=` or newline in it. */
  predicate PlainComponent(k: string) {
    '.' !in k && '=' !in k && '\n' !in k
  }

  /** A value the examples use: one line, already trimmed, not empty. */
  predicate PlainValue(v: string) {
    v != [] && '\n' !in v && !IsSpace(v[0]) && !IsSpace(v[|v| - 1])
  }

  /** What a line `key=value` asks for, when the key path and the trimmed value are known. */
  lemma LineExample(key: string, path: seq<string>, value: string)
    requires '=' !in key && |path| >= 1 && (forall i :: 0 <= i < |path| ==> '.' !in path[i])
    requires Join(path, '.') == key
    requires PlainValue(value)
    ensures Classify(key + "=" + value) == Store(key, value)
    ensures Store(key, value).Path() == path
  {
    SplitJoin(path, '.');
    StripUnchanged(value);
    FirstEqualsSplits(key, value);
  }

  /** A three-component key path joined back with dots. */
  lemma JoinThree(a: string, b: string, c: string)
    ensures Join([a, b, c], '.') == a + "." + b + "." + c
  {
    assert [a, b, c][1..] == [b, c] && [b, c][1..] == [c];
    assert Join([c], '.') == c;
    assert Join([b, c], '.') == b + "." + c;
    assert Join([a, b, c], '.') == a + "." + (b + "." + c);
  }

  /** The line `a.b.c=v` stores `v` at the path `[a, b, c]`. */
  lemma LineThree(a: string, b: string, c: string, v: string)
    requires PlainComponent(a) && PlainComponent(b) && PlainComponent(c) && PlainValue(v)
    ensures Classify(a + "." + b + "." + c + "=" + v).Store?
    ensures Classify(a + "." + b + "." + c + "=" + v).Path() == [a, b, c]
    ensures Classify(a + "." + b + "." + c + "=" + v).value == v
  {
    JoinThree(a, b, c);
    var key := a + "." + b + "." + c;
    assert '=' !in key;
    assert forall i :: 0 <= i < 3 ==> '.' !in [a, b, c][i];
    LineExample(key, [a, b, c], v);
  }

  /** Storing through three fresh components builds a chain of one-entry dictionaries. */
  lemma AssignFreshChain(a: string, b: string, c: string, v: string)
    ensures Assign([], [a, b, c], v) == Ok([Entry(a, Node([Entry(b, Node([Entry(c, Leaf(v))]))]))])
  {
    assert [a, b, c][1..] == [b, c] && [b, c][1..] == [c];
    assert Assign([], [c], v) == Ok([Entry(c, Leaf(v))]);
    assert Assign([], [b, c], v) == Ok([Entry(b, Node([Entry(c, Leaf(v))]))]);
  }

  /** Storing through two existing one-entry dictionaries adds a sibling at the bottom. */
  lemma AssignSibling(a: string, b: string, c: string, d: string, v1: string, v2: string)
    requires c != d
    ensures Assign([Entry(a, Node([Entry(b, Node([Entry(c, Leaf(v1))]))]))], [a, b, d], v2) ==
            Ok([Entry(a, Node([Entry(b, Node([Entry(c, Leaf(v1)), Entry(d, Leaf(v2))]))]))])
  {
    assert [a, b, d][1..] == [b, d] && [b, d][1..] == [d];
    var bottom := [Entry(c, Leaf(v1)), Entry(d, Leaf(v2))];
    assert Put([Entry(c, Leaf(v1))], d, Leaf(v2)) == [Entry(c, Leaf(v1))] + Put([], d, Leaf(v2)) == bottom;
    assert Assign([Entry(c, Leaf(v1))], [d], v2) == Ok(bottom);
    assert Get([Entry(b, Node([Entry(c, Leaf(v1))]))], b) == Some(Node([Entry(c, Leaf(v1))]));
    PutSingle(b, Node([Entry(c, Leaf(v1))]), Node(bottom));
    assert Assign([Entry(b, Node([Entry(c, Leaf(v1))]))], [b, d], v2) == Ok([Entry(b, Node(bottom))]);
    PutSingle(a, Node([Entry(b, Node([Entry(c, Leaf(v1))]))]), Node([Entry(b, Node(bottom))]));
  }

  /** Python `d[k] = u` on the one-entry dictionary `{k: t}`. */
  lemma PutSingle(k: string, t: Tree, u: Tree)
    ensures Put([Entry(k, t)], k, u) == [Entry(k, u)]
  {
    assert [Entry(k, t)][1..] == [];
  }

  /**
   * Lines sharing a key prefix end up in the same nested dictionaries:
   * `a.b.c=v1` and `a.b.d=v2` give `{a: {b: {c: v1, d: v2}}}`.
   */
  lemma SharedPrefixExample(a: string, b: string, c: string, d: string, v1: string, v2: string)
    requires PlainComponent(a) && PlainComponent(b) && PlainComponent(c) && PlainComponent(d)
    requires a != [] && !IsSpace(a[0]) && c != d
    requires PlainValue(v1) && PlainValue(v2)
    ensures Parse(a + "." + b + "." + c + "=" + v1 + "\n" + a + "." + b + "." + d + "=" + v2 + "\n") ==
            Ok([Entry(a, Node([Entry(b, Node([Entry(c, Leaf(v1)), Entry(d, Leaf(v2))]))]))])
  {
    var key1, key2 := a + "." + b + "." + c, a + "." + b + "." + d;
    var line1, line2 := key1 + "=" + v1, key2 + "=" + v2;
    assert a + "." + b + "." + c + "=" + v1 + "\n" + a + "." + b + "." + d + "=" + v2 + "\n"
        == line1 + "\n" + line2 + "\n";
    assert line1[0] == a[0];
    assert line2[|line2| - 1] == v2[|v2| - 1];
    assert '\n' !in line1 && '\n' !in line2;
    assert '=' !in key1 && '=' !in key2;
    TwoLineResponse(line1, line2);
    var d1 := [Entry(a, Node([Entry(b, Node([Entry(c, Leaf(v1))]))]))];
    AssignFreshChain(a, b, c, v1);
    AssignSibling(a, b, c, d, v1, v2);
    LineThree(a, b, c, v1);
    LineThree(a, b, d, v2);
    ParseTwoFrom([], line1, line2);
  }

  /** Storing into a one-entry dictionary at its own key replaces the entry. */
  lemma OverwriteSingle(k: string, t: Tree, v: string)
    ensures Assign([Entry(k, t)], [k], v) == Ok([Entry(k, Leaf(v))])
  {
    PutSingle(k, t, Leaf(v));
  }

  /** The line `k=v` stores `v` at `k` in the empty dictionary. */
  lemma LineOne(k: string, v: string)
    requires PlainComponent(k) && PlainValue(v)
    ensures Classify(k + "=" + v).Store?
    ensures Classify(k + "=" + v).Path() == [k] && Classify(k + "=" + v).value == v
    ensures Assign([], [k], v) == Ok([Entry(k, Leaf(v))])
  {
    assert Join([k], '.') == k;
    LineExample(k, [k], v);
  }

  /** Last write wins on a whole response: `k=v1` then `k=v2` leaves `k` holding `v2`. */
  lemma LastWriteExample(k: string, v1: string, v2: string)
    requires PlainComponent(k) && k != [] && !IsSpace(k[0])
    requires PlainValue(v1) && PlainValue(v2)
    ensures Parse(k + "=" + v1 + "\n" + k + "=" + v2 + "\n") == Ok([Entry(k, Leaf(v2))])
  {
    var line1, line2 := k + "=" + v1, k + "=" + v2;
    assert k + "=" + v1 + "\n" + k + "=" + v2 + "\n" == line1 + "\n" + line2 + "\n";
    assert line1[0] == k[0];
    assert line2[|line2| - 1] == v2[|v2| - 1];
    assert '\n' !in line1 && '\n' !in line2;
    TwoLineResponse(line1, line2);
    var d1 := [Entry(k, Leaf(v1))];
    OverwriteSingle(k, Leaf(v1), v2);
    LineOne(k, v1);
    LineOne(k, v2);
    ParseTwoFrom([], line1, line2);
  }

  // ---------------------------------------------------------------------
  // The round trip: a parsed tree, written back as `key=value` lines in
  // dictionary order, parses to itself.
  // ---------------------------------------------------------------------

  /** A key component a parse gives: a piece of the text before `=`, split on `.`. */
  predicate CleanComponent(k: string) {
    '.' !in k && '=' !in k
  }

  predicate Distinct(ks: seq<string>) {
    forall i, j :: 0 <= i < j < |ks| ==> ks[i] != ks[j]
  }

  /**
   * What a successful parse gives: distinct clean keys, trimmed values and
   * no empty sub-dictionary.
   */
  predicate WellFormed(d: Dict)
    decreases d, 1
  {
    Distinct(Keys(d)) && WellFormedEntries(d)
  }

  predicate WellFormedEntries(d: Dict)
    decreases d, 0
  {
    forall i :: 0 <= i < |d| ==> CleanComponent(d[i].key) && WellFormedTree(d[i].tree)
  }

  predicate WellFormedTree(t: Tree) {
    match t
    case Leaf(v) => Strip(v) == v
    case Node(sub) => sub != [] && WellFormed(sub)
  }

  /** A value and the key path it sits at. */
  type Pair = (seq<string>, string)

  /** The pairs `ps` with `k` put in front of every key path. */
  function Under(k: string, ps: seq<Pair>): (r: seq<Pair>)
    ensures |r| == |ps| && forall i :: 0 <= i < |ps| ==> r[i] == ([k] + ps[i].0, ps[i].1)
  {
    if ps == [] then [] else [([k] + ps[0].0, ps[0].1)] + Under(k, ps[1..])
  }

  /** The values of `d` with their key paths, in dictionary order, depth first. */
  function Leaves(d: Dict): (r: seq<Pair>)
    ensures forall i :: 0 <= i < |r| ==> |r[i].0| >= 1
  {
    if d == [] then [] else EntryLeaves(d[0]) + Leaves(d[1..])
  }

  /** The values under one entry with their key paths, the entry's key first. */
  function EntryLeaves(e: Entry): (r: seq<Pair>)
    ensures forall i :: 0 <= i < |r| ==> |r[i].0| >= 1
  {
    match e.tree
    case Leaf(v) => [([e.key], v)]
    case Node(sub) => Under(e.key, Leaves(sub))
  }

  /** The line `a.b.c=v` for the value `v` at the key path `[a, b, c]`. */
  function LineOf(p: Pair): string
    requires |p.0| >= 1
  {
    Join(p.0, '.') + "=" + p.1
  }

  function LinesOf(ps: seq<Pair>): (lines: seq<string>)
    requires forall i :: 0 <= i < |ps| ==> |ps[i].0| >= 1
    ensures |lines| == |ps|
  {
    if ps == [] then [] else [LineOf(ps[0])] + LinesOf(ps[1..])
  }

  /** A parsed dictionary written back as `key=value` lines. */
  function Flatten(d: Dict): seq<string> {
    LinesOf(Leaves(d))
  }

  /** The descent carried out for each pair in turn, the first error ending it. */
  function StoreAll(d: Dict, ps: seq<Pair>): Result<Dict, ParseError>
    requires forall i :: 0 <= i < |ps| ==> |ps[i].0| >= 1
    decreases |ps|
  {
    if ps == [] then Ok(d)
    else
      var d' :- Assign(d, ps[0].0, ps[0].1);
      StoreAll(d', ps[1..])
  }

  /** A pair whose line parses back to it: clean components and a trimmed value. */
  predicate StorablePair(p: Pair) {
    && |p.0| >= 1
    && (forall j :: 0 <= j < |p.0| ==> CleanComponent(p.0[j]))
    && Strip(p.1) == p.1
  }

  predicate Storable(ps: seq<Pair>) {
    forall i :: 0 <= i < |ps| ==> StorablePair(ps[i])
  }

  /** The line of a storable pair asks for exactly the descent of that pair. */
  lemma StepLine(d: Dict, p: Pair)
    requires StorablePair(p)
    ensures Step(d, Classify(LineOf(p))) == Assign(d, p.0, p.1)
  {
    var key := Join(p.0, '.');
    JoinChars(p.0, '.', '=');
    FirstEqualsSplits(key, p.1);
    SplitJoin(p.0, '.');
  }

  /** Parsing the lines of storable pairs carries out their descents. */
  lemma {:induction false} ParseLinesOf(d: Dict, ps: seq<Pair>)
    requires Storable(ps)
    ensures ParseFrom(d, LinesOf(ps)) == StoreAll(d, ps)
    decreases |ps|
  {
    if ps != [] {
      var lines := LinesOf(ps);
      assert lines[0] == LineOf(ps[0]) && lines[1..] == LinesOf(ps[1..]);
      StepLine(d, ps[0]);
      StorableTail(ps);
      var step := Assign(d, ps[0].0, ps[0].1);
      if step.Ok? {
        ParseLinesOf(step.value, ps[1..]);
      }
    }
  }

  lemma StorableTail(ps: seq<Pair>)
    requires ps != [] && Storable(ps)
    ensures Storable(ps[1..])
  {
    assert forall i :: 0 <= i < |ps[1..]| ==> ps[1..][i] == ps[i + 1];
  }

  lemma {:induction false} StoreAllAppend(d: Dict, a: seq<Pair>, b: seq<Pair>)
    requires forall i :: 0 <= i < |a| ==> |a[i].0| >= 1
    requires forall i :: 0 <= i < |b| ==> |b[i].0| >= 1
    ensures StoreAll(d, a + b) == if StoreAll(d, a).Err? then StoreAll(d, a) else StoreAll(StoreAll(d, a).value, b)
    decreases |a|
  {
    if a == [] {
      assert a + b == b;
    } else {
      assert (a + b)[0] == a[0] && (a + b)[1..] == a[1..] + b;
      match Assign(d, a[0].0, a[0].1)
      case Err(_) =>
      case Ok(d') =>
        StoreAllAppend(d', a[1..], b);
    }
  }

  /** `d[k] = d[k]` changes nothing. */
  lemma {:induction false} PutSame(d: Dict, k: string)
    requires Get(d, k).Some?
    ensures Put(d, k, Get(d, k).value) == d
  {
    if d[0].key != k {
      PutSame(d[1..], k);
    }
  }

  /** A key that is not there is added at the end. */
  lemma {:induction false} PutNew(d: Dict, k: string, t: Tree)
    requires k !in Keys(d)
    ensures Get(d, k).None?
    ensures Put(d, k, t) == d + [Entry(k, t)]
  {
    if d != [] {
      assert d[0].key == Keys(d)[0] && Keys(d[1..]) == Keys(d)[1..];
      PutNew(d[1..], k, t);
      SplitFirst([], d + [Entry(k, t)]);
      assert (d + [Entry(k, t)])[1..] == d[1..] + [Entry(k, t)];
    }
  }

  function Lift(d: Dict, k: string, r: Result<Dict, ParseError>): Result<Dict, ParseError> {
    if r.Err? then Err(r.error) else Ok(Put(d, k, Node(r.value)))
  }

  /**
   * Pairs all under the key `k` build the sub-dictionary at `k`: from the
   * one already there, or from a fresh one when `k` is missing.
   */
  lemma {:induction false} StoreUnder(d: Dict, k: string, x: Dict, ps: seq<Pair>)
    requires forall i :: 0 <= i < |ps| ==> |ps[i].0| >= 1
    requires Get(d, k) == Some(Node(x)) || (Get(d, k).None? && x == [] && ps != [])
    ensures StoreAll(d, Under(k, ps)) == Lift(d, k, StoreAll(x, ps))
    decreases |ps|
  {
    if ps == [] {
      PutSame(d, k);
    } else {
      var path := [k] + ps[0].0;
      assert Under(k, ps)[0] == (path, ps[0].1) && Under(k, ps)[1..] == Under(k, ps[1..]);
      assert path[0] == k && path[1..] == ps[0].0;
      match Assign(x, ps[0].0, ps[0].1)
      case Err(_) =>
      case Ok(y) =>
        var d' := Put(d, k, Node(y));
        assert Assign(d, path, ps[0].1) == Ok(d');
        StoreUnder(d', k, y, ps[1..]);
        if StoreAll(y, ps[1..]).Ok? {
          PutTwice(d, k, Node(y), Node(StoreAll(y, ps[1..]).value));
        }
    }
  }

  lemma RestWellFormed(d: Dict)
    requires d != [] && WellFormed(d)
    ensures WellFormed(d[1..])
  {
    assert Keys(d[1..]) == Keys(d)[1..];
    assert forall i :: 0 <= i < |d[1..]| ==> d[1..][i] == d[i + 1];
  }

  /** The pairs of a well-formed dictionary all parse back. */
  lemma {:induction false} LeavesStorable(d: Dict)
    requires WellFormed(d)
    ensures Storable(Leaves(d))
  {
    if d != [] {
      RestWellFormed(d);
      LeavesStorable(d[1..]);
      EntryStorable(d[0]);
    }
  }

  lemma {:induction false} EntryStorable(e: Entry)
    requires CleanComponent(e.key) && WellFormedTree(e.tree)
    ensures Storable(EntryLeaves(e))
  {
    match e.tree
    case Leaf(v) =>
    case Node(sub) =>
      LeavesStorable(sub);
      var here := EntryLeaves(e);
      forall i | 0 <= i < |here|
        ensures StorablePair(here[i])
      {
        assert here[i].0 == [e.key] + Leaves(sub)[i].0;
      }
  }

  /** Every entry of a well-formed dictionary holds at least one value. */
  lemma {:induction false} LeavesNonEmpty(d: Dict)
    requires d != [] && WellFormed(d)
    ensures Leaves(d) != []
  {
    assert WellFormedTree(d[0].tree);
    match d[0].tree
    case Leaf(_) =>
    case Node(sub) =>
      LeavesNonEmpty(sub);
  }

  /** Keys of a well-formed `d` that are new to `a` stay new once `d`'s first entry is added. */
  lemma KeysStayNew(a: Dict, d: Dict)
    requires d != [] && Distinct(Keys(d))
    requires forall i :: 0 <= i < |d| ==> d[i].key !in Keys(a)
    ensures forall i :: 1 <= i < |d| ==> d[i].key !in Keys(a + [d[0]])
  {
    assert Keys(a + [d[0]]) == Keys(a) + [d[0].key];
    forall i | 1 <= i < |d|
      ensures d[i].key !in Keys(a + [d[0]])
    {
      assert Keys(d)[0] == d[0].key && Keys(d)[i] == d[i].key;
    }
  }

  lemma SplitFirst<T>(a: seq<T>, d: seq<T>)
    requires d != []
    ensures a + [d[0]] + d[1..] == a + d
  {
    assert [d[0]] + d[1..] == d;
  }

  /** Storing the pairs of `d` after the distinct keys of `a` appends `d` to `a`. */
  lemma {:induction false} StoreLeaves(a: Dict, d: Dict)
    requires WellFormed(d)
    requires forall i :: 0 <= i < |d| ==> d[i].key !in Keys(a)
    ensures StoreAll(a, Leaves(d)) == Ok(a + d)
    decreases d
  {
    if d == [] {
      assert a + d == a;
    } else {
      var e, rest := d[0], d[1..];
      RestWellFormed(d);
      StoreAllAppend(a, EntryLeaves(e), Leaves(rest));
      StoreEntry(a, e);
      KeysStayNew(a, d);
      assert forall i :: 0 <= i < |rest| ==> rest[i] == d[i + 1];
      StoreLeaves(a + [e], rest);
      SplitFirst(a, d);
    }
  }

  /** Storing the pairs under one entry whose key is new appends the entry. */
  lemma {:induction false} StoreEntry(a: Dict, e: Entry)
    requires WellFormedTree(e.tree) && e.key !in Keys(a)
    ensures StoreAll(a, EntryLeaves(e)) == Ok(a + [e])
    decreases e
  {
    PutNew(a, e.key, e.tree);
    match e.tree
    case Leaf(v) =>
    case Node(sub) =>
      LeavesNonEmpty(sub);
      StoreLeaves([], sub);
      StoreUnder(a, e.key, [], Leaves(sub));
      assert [] + sub == sub;
  }

  /** A well-formed dictionary written back as lines parses to itself. */
  lemma FlattenParses(d: Dict)
    requires WellFormed(d)
    ensures ParseLines(Flatten(d)) == Ok(d)
  {
    LeavesStorable(d);
    ParseLinesOf([], Leaves(d));
    StoreLeaves([], d);
    assert [] + d == d;
  }

  /** Adding a key that is not there keeps the keys distinct. */
  lemma DistinctAppend(ks: seq<string>, k: string)
    requires Distinct(ks) && k !in ks
    ensures Distinct(ks + [k])
  {
  }

  /** `d[k] = t` with a clean key and a well-formed tree keeps a dictionary well-formed. */
  lemma PutWellFormed(d: Dict, k: string, t: Tree)
    requires WellFormed(d) && CleanComponent(k) && WellFormedTree(t)
    ensures WellFormed(Put(d, k, t))
  {
    if k !in Keys(d) {
      DistinctAppend(Keys(d), k);
    }
    PutEntries(d, k, t);
  }

  /** Every entry of `Put(d, k, t)` is `k: t` or an entry of `d`. */
  lemma {:induction false} PutShape(d: Dict, k: string, t: Tree)
    ensures forall e :: e in Put(d, k, t) ==> e == Entry(k, t) || e in d
  {
    if d != [] && d[0].key != k {
      PutShape(d[1..], k, t);
      assert Put(d, k, t) == [d[0]] + Put(d[1..], k, t);
      assert forall e :: e in d[1..] ==> e in d;
    } else if d != [] {
      assert forall e :: e in d[1..] ==> e in d;
    }
  }

  lemma PutEntries(d: Dict, k: string, t: Tree)
    requires WellFormedEntries(d) && CleanComponent(k) && WellFormedTree(t)
    ensures WellFormedEntries(Put(d, k, t))
  {
    var r := Put(d, k, t);
    PutShape(d, k, t);
    forall i | 0 <= i < |r|
      ensures CleanComponent(r[i].key) && WellFormedTree(r[i].tree)
    {
      assert r[i] in r;
      if r[i] != Entry(k, t) {
        var j :| 0 <= j < |d| && d[j] == r[i];
      }
    }
  }

  /**
   * A descent along clean components with a trimmed value keeps a
   * dictionary well-formed, and leaves it non-empty.
   */
  lemma {:induction false} AssignWellFormed(d: Dict, path: seq<string>, v: string)
    requires WellFormed(d) && |path| >= 1 && Strip(v) == v
    requires forall j :: 0 <= j < |path| ==> CleanComponent(path[j])
    ensures Assign(d, path, v).Ok? ==> WellFormed(Assign(d, path, v).value) && Assign(d, path, v).value != []
    decreases |path|
  {
    var k := path[0];
    if |path| == 1 {
      PutWellFormed(d, k, Leaf(v));
    } else {
      assert forall j :: 0 <= j < |path[1..]| ==> path[1..][j] == path[j + 1];
      match Get(d, k)
      case Some(Leaf(_)) =>
      case Some(Node(sub)) =>
        GetWellFormed(d, k);
        AssignWellFormed(sub, path[1..], v);
        if Assign(sub, path[1..], v).Ok? {
          PutWellFormed(d, k, Node(Assign(sub, path[1..], v).value));
        }
      case None =>
        AssignWellFormed([], path[1..], v);
        if Assign([], path[1..], v).Ok? {
          PutWellFormed(d, k, Node(Assign([], path[1..], v).value));
        }
    }
    AssignNonEmpty(d, path, v);
  }

  /** A successful descent leaves the first component in the top dictionary. */
  lemma AssignNonEmpty(d: Dict, path: seq<string>, v: string)
    requires |path| >= 1
    ensures Assign(d, path, v).Ok? ==> Get(Assign(d, path, v).value, path[0]).Some?
  {
  }

  /** What `d[k]` gives in a well-formed dictionary is well-formed. */
  lemma {:induction false} GetWellFormed(d: Dict, k: string)
    requires WellFormed(d) && Get(d, k).Some?
    ensures WellFormedTree(Get(d, k).value)
  {
    if d[0].key != k {
      RestWellFormed(d);
      GetWellFormed(d[1..], k);
    }
  }

  /** Every successful parse step keeps the dictionary well-formed. */
  lemma {:induction false} ParseFromWellFormed(d: Dict, lines: seq<string>)
    requires WellFormed(d)
    ensures ParseFrom(d, lines).Ok? ==> WellFormed(ParseFrom(d, lines).value)
    decreases |lines|
  {
    if lines != [] {
      match Classify(lines[0])
      case Malformed(_) =>
      case Store(key, value) =>
        var path := Split(key, '.');
        forall j | 0 <= j < |path|
          ensures CleanComponent(path[j])
        {
          JoinChars(path, '.', '=');
        }
        StripTwice(SplitOnce(lines[0], '=').value.1);
        AssignWellFormed(d, path, value);
        if Assign(d, path, value).Ok? {
          ParseFromWellFormed(Assign(d, path, value).value, lines[1..]);
        }
    }
  }

  /**
   * A successful parse, written back as `key=value` lines in dictionary
   * order and parsed again, gives the same dictionary.
   */
  lemma ParseFlattenParse(response: string)
    ensures Parse(response).Ok? ==> ParseLines(Flatten(Parse(response).value)) == Parse(response)
  {
    ParseFromWellFormed([], Lines(response));
    if Parse(response).Ok? {
      FlattenParses(Parse(response).value);
    }
  }
}

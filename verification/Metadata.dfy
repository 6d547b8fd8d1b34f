/** Bounded, redacted JSON metadata (backend/app/core/metadata.py and redaction.py): a structural
    check with an explicit stack, and a recursive redaction. */
module Metadata {
  import opened Common

  /** Dictionary keys; only names are JSON. */
  datatype Key = Name(name: string) | Odd(code: int)

  /** A Python value as the check sees it; `Opaque` is any value JSON cannot hold. Numbers,
      booleans and null are `Scalar`; lists and tuples are not told apart. */
  datatype Value =
    | Scalar(code: int)
    | Text(text: string)
    | List(items: seq<Value>)
    | Dict(members: seq<Member>)
    | Opaque
  datatype Member = Member(key: Key, value: Value)

  // ---------------------------------------------------------------- recursive definitions

  function Nodes(v: Value): (n: nat)
    ensures n >= 1
  {
    match v
    case List(items) => 1 + NodesIn(items)
    case Dict(members) => 1 + NodesOf(members)
    case _ => 1
  }

  function NodesIn(items: seq<Value>): nat {
    if items == [] then 0 else NodesIn(items[..|items| - 1]) + Nodes(items[|items| - 1])
  }

  function NodesOf(members: seq<Member>): nat {
    if members == [] then 0
    else
      var last := members[|members| - 1];
      assert last.value < last;
      NodesOf(members[..|members| - 1]) + Nodes(last.value)
  }

  /** No value lies more than `limit` levels below this one. */
  predicate Shallow(v: Value, limit: int) {
    limit >= 0 &&
    match v
    case List(items) => forall i | 0 <= i < |items| :: Shallow(items[i], limit - 1)
    case Dict(members) => forall i | 0 <= i < |members| :: Shallow(members[i].value, limit - 1)
    case _ => true
  }

  /** Only names as keys and only JSON leaves, at every depth. */
  predicate JsonOnly(v: Value) {
    match v
    case List(items) => forall i | 0 <= i < |items| :: JsonOnly(items[i])
    case Dict(members) => forall i | 0 <= i < |members| :: members[i].key.Name? && JsonOnly(members[i].value)
    case Opaque => false
    case _ => true
  }

  /** What the structural check accepts. */
  predicate WithinBounds(v: Value, maxDepth: int, maxNodes: int) {
    Nodes(v) <= maxNodes && Shallow(v, maxDepth) && JsonOnly(v)
  }

  // ---------------------------------------------------------------- the check

  /** A value waiting on the stack, with its depth. */
  datatype Waiting = Waiting(value: Value, depth: int)

  function Weight(pending: seq<Waiting>): nat {
    if pending == [] then 0 else Weight(pending[..|pending| - 1]) + Nodes(pending[|pending| - 1].value)
  }

  ghost predicate Fine(pending: seq<Waiting>, maxDepth: int) {
    forall i | 0 <= i < |pending| ::
        Shallow(pending[i].value, maxDepth - pending[i].depth) && JsonOnly(pending[i].value)
  }

  /** What accepting the stack means after `nodes` values were popped. */
  ghost predicate Acceptable(nodes: nat, pending: seq<Waiting>, maxDepth: int, maxNodes: int) {
    nodes + Weight(pending) <= maxNodes && Fine(pending, maxDepth)
  }

  function Children(v: Value): seq<Value> {
    match v
    case List(items) => items
    case Dict(members) => seq(|members|, i requires 0 <= i < |members| => members[i].value)
    case _ => []
  }

  function Pushed(children: seq<Value>, depth: int): seq<Waiting> {
    seq(|children|, i requires 0 <= i < |children| => Waiting(children[i], depth))
  }

  lemma {:induction false} WeightConcat(a: seq<Waiting>, b: seq<Waiting>)
    ensures Weight(a + b) == Weight(a) + Weight(b)
  {
    if b == [] {
      assert a + b == a;
    } else {
      var n := |b| - 1;
      WeightConcat(a, b[..n]);
      assert (a + b)[..|a| + n] == a + b[..n];
    }
  }

  lemma {:induction false} WeightPushed(children: seq<Value>, depth: int)
    ensures Weight(Pushed(children, depth)) == NodesIn(children)
  {
    if children != [] {
      var n := |children| - 1;
      WeightPushed(children[..n], depth);
      assert Pushed(children, depth)[..n] == Pushed(children[..n], depth);
    }
  }

  lemma {:induction false} NodesOfValues(members: seq<Member>)
    ensures NodesOf(members) == NodesIn(Children(Dict(members)))
  {
    if members != [] {
      var n := |members| - 1;
      NodesOfValues(members[..n]);
      assert Children(Dict(members))[..n] == Children(Dict(members[..n]));
    }
  }

  /** A value weighs one more than its children. */
  lemma NodesChildren(v: Value)
    ensures Nodes(v) == 1 + NodesIn(Children(v))
  {
    if v.Dict? {
      NodesOfValues(v.members);
    }
  }

  /** What the check looks at when it pops a value, apart from the children it pushes. */
  predicate Admissible(v: Value, room: int) {
    room >= 0 && !v.Opaque? && (v.Dict? ==> forall i | 0 <= i < |v.members| :: v.members[i].key.Name?)
  }

  lemma FineChildren(v: Value, room: int)
    ensures Shallow(v, room) && JsonOnly(v) <==>
            Admissible(v, room) && forall i | 0 <= i < |Children(v)| ::
                Shallow(Children(v)[i], room - 1) && JsonOnly(Children(v)[i])
  {
    var fine := forall i | 0 <= i < |Children(v)| :: Shallow(Children(v)[i], room - 1) && JsonOnly(Children(v)[i]);
    match v {
      case Dict(members) =>
        var children := Children(v);
        assert |children| == |members| && forall i | 0 <= i < |members| :: children[i] == members[i].value;
        assert fine <==> forall i | 0 <= i < |members| ::
            Shallow(members[i].value, room - 1) && JsonOnly(members[i].value) by {
          if forall i | 0 <= i < |members| :: Shallow(members[i].value, room - 1) && JsonOnly(members[i].value) {
            assert forall i | 0 <= i < |children| :: Shallow(members[i].value, room - 1) && JsonOnly(members[i].value);
          } else {
            var i :| 0 <= i < |members| && !(Shallow(members[i].value, room - 1) && JsonOnly(members[i].value));
            assert !(Shallow(children[i], room - 1) && JsonOnly(children[i]));
          }
        }
      case List(items) =>
        assert Children(v) == items;
        assert fine <==> forall i | 0 <= i < |items| :: Shallow(items[i], room - 1) && JsonOnly(items[i]);
      case _ =>
    }
  }

  /** Popping a value and pushing its children does not change whether the stack is acceptable,
      provided the value itself is admissible; otherwise the stack is not. */
  lemma PopPush(nodes: nat, rest: seq<Waiting>, top: Waiting, maxDepth: int, maxNodes: int)
    ensures Acceptable(nodes, rest + [top], maxDepth, maxNodes) <==>
            Admissible(top.value, maxDepth - top.depth)
                && Acceptable(nodes + 1, rest + Pushed(Children(top.value), top.depth + 1), maxDepth, maxNodes)
    ensures Weight(rest + [top]) == 1 + Weight(rest + Pushed(Children(top.value), top.depth + 1))
  {
    hide Fine;
    hide Weight;
    hide Admissible;
    hide Children;
    hide Pushed;
    var pushed := Pushed(Children(top.value), top.depth + 1);
    PopWeighs(rest, top);
    FineTop(top, maxDepth);
    FineConcat(rest, [top], maxDepth);
    FineConcat(rest, pushed, maxDepth);
  }

  lemma PopWeighs(rest: seq<Waiting>, top: Waiting)
    ensures Weight(rest + [top]) == 1 + Weight(rest + Pushed(Children(top.value), top.depth + 1))
  {
    hide Nodes;
    hide Children;
    var children := Children(top.value);
    WeightConcat(rest, Pushed(children, top.depth + 1));
    WeightPushed(children, top.depth + 1);
    NodesChildren(top.value);
    assert (rest + [top])[..|rest|] == rest;
  }

  lemma FineTop(top: Waiting, maxDepth: int)
    ensures Fine([top], maxDepth) <==>
            Admissible(top.value, maxDepth - top.depth) && Fine(Pushed(Children(top.value), top.depth + 1), maxDepth)
  {
    hide Shallow;
    hide JsonOnly;
    hide Admissible;
    hide Children;
    var children := Children(top.value);
    var pushed := Pushed(children, top.depth + 1);
    FineChildren(top.value, maxDepth - top.depth);
    assert forall i | 0 <= i < |children| :: pushed[i] == Waiting(children[i], top.depth + 1);
    assert [top][0] == top;
  }

  lemma FineConcat(a: seq<Waiting>, b: seq<Waiting>, maxDepth: int)
    ensures Fine(a + b, maxDepth) <==> Fine(a, maxDepth) && Fine(b, maxDepth)
  {
    hide Shallow;
    hide JsonOnly;
    assert forall i | 0 <= i < |a| :: (a + b)[i] == a[i];
    assert forall i | 0 <= i < |b| :: (a + b)[|a| + i] == b[i];
  }

  /** `_validate_json_shape` */
  method ValidateJsonShape(value: Value, maxDepth: int, maxNodes: int) returns (ok: bool)
    ensures ok <==> WithinBounds(value, maxDepth, maxNodes)
  {
    hide Shallow;
    hide JsonOnly;
    hide Nodes;
    var nodes := 0;
    var pending := [Waiting(value, 0)];
    StackOfOne(value, maxDepth, maxNodes);
    while pending != []
      invariant nodes <= maxNodes || pending == [Waiting(value, 0)]
      invariant WithinBounds(value, maxDepth, maxNodes) <==> Acceptable(nodes, pending, maxDepth, maxNodes)
      decreases Weight(pending)
    {
      var top, rest := pending[|pending| - 1], pending[..|pending| - 1];
      assert pending == rest + [top];
      PopPush(nodes, rest, top, maxDepth, maxNodes);
      pending := rest;
      nodes := nodes + 1;
      if nodes > maxNodes {
        return false;
      }
      if top.depth > maxDepth {
        return false;
      }
      if top.value.Dict? {
        if exists i | 0 <= i < |top.value.members| :: !top.value.members[i].key.Name? {
          return false;
        }
      } else if top.value.Opaque? {
        return false;
      }
      pending := pending + Pushed(Children(top.value), top.depth + 1);
    }
    return true;
  }

  lemma StackOfOne(value: Value, maxDepth: int, maxNodes: int)
    ensures WithinBounds(value, maxDepth, maxNodes) <==> Acceptable(0, [Waiting(value, 0)], maxDepth, maxNodes)
  {
    hide Shallow;
    hide JsonOnly;
    var one := [Waiting(value, 0)];
    assert one[..0] == [];
    assert one[0].value == value && one[0].depth == 0;
    assert Weight(one) == Weight(one[..0]) + Nodes(value);
    assert Fine(one, maxDepth) <==> Shallow(value, maxDepth) && JsonOnly(value) by {
      assert Shallow(one[0].value, maxDepth - one[0].depth) == Shallow(value, maxDepth);
    }
  }

  // ---------------------------------------------------------------- redaction

  const REDACTED: string := "***REDACTED***"

  /** The two text-level operations: which keys name secrets, and how text is cleaned. */
  datatype Rules = Rules(sensitive: Key -> bool, clean: string -> string)

  /** `redact_secrets` */
  function Redact(rules: Rules, v: Value): Value {
    match v
    case List(items) => List(seq(|items|, i requires 0 <= i < |items| => Redact(rules, items[i])))
    case Dict(members) =>
      Dict(seq(|members|, i requires 0 <= i < |members| =>
        Member(members[i].key,
               if rules.sensitive(members[i].key) then Text(REDACTED) else Redact(rules, members[i].value))))
    case Text(text) => Text(rules.clean(text))
    case _ => v
  }

  /** At every depth, a sensitive key holds the marker and nothing else. */
  predicate Marked(rules: Rules, v: Value) {
    match v
    case List(items) => forall i | 0 <= i < |items| :: Marked(rules, items[i])
    case Dict(members) =>
      forall i | 0 <= i < |members| ::
        (rules.sensitive(members[i].key) ==> members[i].value == Text(REDACTED)) && Marked(rules, members[i].value)
    case _ => true
  }

  lemma {:induction false} NodesPointwise(a: seq<Value>, b: seq<Value>)
    requires |a| == |b| && forall i | 0 <= i < |a| :: Nodes(a[i]) <= Nodes(b[i])
    ensures NodesIn(a) <= NodesIn(b)
  {
    if a != [] {
      var n := |a| - 1;
      NodesPointwise(a[..n], b[..n]);
    }
  }

  /** Redaction keeps the shape within what it was: no more values, none deeper, JSON stays JSON. */
  lemma {:induction false} RedactShrinks(rules: Rules, v: Value)
    ensures Nodes(Redact(rules, v)) <= Nodes(v)
    ensures JsonOnly(v) ==> JsonOnly(Redact(rules, v))
    ensures forall limit :: Shallow(v, limit) ==> Shallow(Redact(rules, v), limit)
  {
    var r := Redact(rules, v);
    match v {
      case List(items) =>
        forall i | 0 <= i < |items| ensures Smaller(r.items[i], items[i]) {
          RedactShrinks(rules, items[i]);
        }
        NodesPointwise(r.items, items);
      case Dict(members) =>
        forall i | 0 <= i < |members| ensures Smaller(r.members[i].value, members[i].value) {
          RedactShrinks(rules, members[i].value);
        }
        NodesOfValues(members);
        NodesOfValues(r.members);
        NodesPointwise(Children(r), Children(v));
      case _ =>
    }
  }

  ghost predicate Smaller(r: Value, v: Value) {
    && Nodes(r) <= Nodes(v) && (JsonOnly(v) ==> JsonOnly(r))
    && forall limit :: Shallow(v, limit) ==> Shallow(r, limit)
  }

  /** No sensitive key keeps its value, at any depth, and no key is lost or added. */
  lemma {:induction false} RedactMarks(rules: Rules, v: Value)
    ensures Marked(rules, Redact(rules, v))
    ensures v.Dict? ==> Redact(rules, v).Dict? && |Redact(rules, v).members| == |v.members|
                        && forall i | 0 <= i < |v.members| :: Redact(rules, v).members[i].key == v.members[i].key
  {
    match v {
      case List(items) =>
        forall i | 0 <= i < |items| ensures Marked(rules, Redact(rules, items[i])) {
          RedactMarks(rules, items[i]);
        }
      case Dict(members) =>
        forall i | 0 <= i < |members| ensures Marked(rules, Redact(rules, members[i].value)) {
          RedactMarks(rules, members[i].value);
        }
      case _ =>
    }
  }

  /** The value at the end of a path of positions. */
  function At(v: Value, path: seq<nat>): Option<Value>
    decreases |path|
  {
    if path == [] then Some(v)
    else if path[0] < |Children(v)| then At(Children(v)[path[0]], path[1..])
    else None
  }

  /** A sensitive key lies on the path. */
  predicate Hidden(rules: Rules, v: Value, path: seq<nat>)
    decreases |path|
  {
    && path != [] && path[0] < |Children(v)|
    && ((v.Dict? && rules.sensitive(v.members[path[0]].key)) || Hidden(rules, Children(v)[path[0]], path[1..]))
  }

  /** The same value with its text cleaned; what lies below it is for the longer paths to say. */
  predicate Cleaned(rules: Rules, v: Value, r: Value) {
    match v
    case Text(text) => r == Text(rules.clean(text))
    case List(items) => r.List? && |r.items| == |items|
    case Dict(members) =>
      r.Dict? && |r.members| == |members| && forall i | 0 <= i < |members| :: r.members[i].key == members[i].key
    case _ => r == v
  }

  /** Redaction changes nothing else: every value on a path without a sensitive key is still there, with
      its text cleaned, and there are no values on other paths. */
  lemma {:induction false} RedactKeeps(rules: Rules, v: Value, path: seq<nat>)
    ensures !Hidden(rules, v, path) ==>
              var before, after := At(v, path), At(Redact(rules, v), path);
              before.Some? == after.Some? && (before.Some? ==> Cleaned(rules, before.value, after.value))
    ensures At(v, path).None? ==> At(Redact(rules, v), path).None?
    decreases |path|
  {
    if path != [] && path[0] < |Children(v)| {
      var child := Children(v)[path[0]];
      RedactKeeps(rules, child, path[1..]);
      var shielded := v.Dict? && rules.sensitive(v.members[path[0]].key);
      RedactedChild(rules, v, path[0]);
      if shielded {
        assert Children(Text(REDACTED)) == [];
        if path[1..] == [] {
          assert At(v, path) == Some(child);
        }
      }
    } else if path != [] {
      assert |Children(Redact(rules, v))| == |Children(v)|;
    }
  }

  lemma RedactedChild(rules: Rules, v: Value, i: nat)
    requires i < |Children(v)|
    ensures i < |Children(Redact(rules, v))|
    ensures Children(Redact(rules, v))[i] == if v.Dict? && rules.sensitive(v.members[i].key) then Text(REDACTED)
                                             else Redact(rules, Children(v)[i])
  {
  }

  /** Redacting twice is redacting once, if cleaning text twice is cleaning it once. */
  lemma {:induction false} RedactIdempotent(rules: Rules, v: Value)
    requires forall s :: rules.clean(rules.clean(s)) == rules.clean(s)
    requires rules.clean(REDACTED) == REDACTED
    ensures Redact(rules, Redact(rules, v)) == Redact(rules, v)
  {
    var r := Redact(rules, v);
    var rr := Redact(rules, r);
    match v {
      case List(items) =>
        forall i | 0 <= i < |items| ensures rr.items[i] == r.items[i] {
          RedactIdempotent(rules, items[i]);
        }
        assert rr.items == r.items;
      case Dict(members) =>
        forall i | 0 <= i < |members| ensures rr.members[i] == r.members[i] {
          RedactIdempotent(rules, members[i].value);
        }
        assert rr.members == r.members;
      case _ =>
    }
  }

  // ---------------------------------------------------------------- sanitizing

  datatype Limits = Limits(bytes: int, entries: int, depth: int, nodes: int)

  datatype Problem = TooManyEntries | BadShape | NotJson | TooLarge

  /** `sanitize_metadata`; `size` is the length of the encoding, None where encoding raises. */
  method SanitizeMetadata(rules: Rules, size: Value -> Option<nat>, members: seq<Member>, l: Limits)
      returns (r: Result<Value, Problem>)
    ensures r == SanitizeSpec(rules, size, members, l)
    ensures var v := Dict(members); var redacted := Redact(rules, v);
            var fits := |members| <= l.entries && Nodes(v) <= l.nodes && Shallow(v, l.depth) && JsonOnly(v);
            && (r.Ok? <==> fits && size(redacted).Some? && size(redacted).value <= l.bytes)
            && (r.Ok? ==> r.value == redacted)
            && (r == Raised(TooManyEntries) <==> |members| > l.entries)
            && (r == Raised(BadShape) <==> |members| <= l.entries && !fits)
            && (r == Raised(NotJson) <==> fits && size(redacted).None?)
            && (r == Raised(TooLarge) <==> fits && size(redacted).Some? && size(redacted).value > l.bytes)
  {
    if |members| > l.entries {
      return Raised(TooManyEntries);
    }
    var ok := ValidateJsonShape(Dict(members), l.depth, l.nodes);
    if !ok {
      return Raised(BadShape);
    }
    var sanitized := Redact(rules, Dict(members));
    var encoded := size(sanitized);
    if encoded.None? {
      return Raised(NotJson);
    }
    if encoded.value > l.bytes {
      return Raised(TooLarge);
    }
    return Ok(sanitized);
  }

  function SanitizeSpec(rules: Rules, size: Value -> Option<nat>, members: seq<Member>, l: Limits): Result<Value,
      Problem> {
    var sanitized := Redact(rules, Dict(members));
    if |members| > l.entries then Raised(TooManyEntries)
    else if !WithinBounds(Dict(members), l.depth, l.nodes) then Raised(BadShape)
    else if size(sanitized).None? then Raised(NotJson)
    else if size(sanitized).value > l.bytes then Raised(TooLarge)
    else Ok(sanitized)
  }

  /** What is let through passes every check again and holds no value under a sensitive key; and
      if cleaning text is idempotent, sanitizing it once more returns it unchanged. */
  lemma SanitizeTheorem(rules: Rules, size: Value -> Option<nat>, members: seq<Member>, l: Limits)
    requires SanitizeSpec(rules, size, members, l).Ok?
    ensures var r := SanitizeSpec(rules, size, members, l).value;
            && r.Dict? && WithinBounds(r, l.depth, l.nodes) && Marked(rules, r) && |r.members| <= l.entries
            && size(r).Some? && size(r).value <= l.bytes
            && ((forall s :: rules.clean(rules.clean(s)) == rules.clean(s)) && rules.clean(REDACTED) == REDACTED ==>
                  SanitizeSpec(rules, size, r.members, l) == Ok(r))
  {
    var v := Dict(members);
    RedactShrinks(rules, v);
    RedactMarks(rules, v);
    assert Shallow(v, l.depth);
    if (forall s :: rules.clean(rules.clean(s)) == rules.clean(s)) && rules.clean(REDACTED) == REDACTED {
      RedactIdempotent(rules, v);
      assert Dict(Redact(rules, v).members) == Redact(rules, v);
    }
  }
}

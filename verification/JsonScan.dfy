/** The display's flat scan of a JSON token stream against a walk of the documents it spells (display/client.go). */
module JsonScan {
  import opened Basics
  import Decimal

  datatype Token = OpenObject | CloseObject | OpenArray | CloseArray | Text(s: string) | Literal

  /** A document: literals are numbers, booleans and null. */
  datatype Json = Object(members: seq<Member>) | Array(items: seq<Json>) | String(s: string) | Atom

  datatype Member = Member(key: string, value: Json)

  /** Keys whose string values are unsigned 64-bit decimals. */
  predicate DecimalField(key: string) {
    key in {"stateRevision", "stationSetRevision", "configRevision", "rfRevision", "sequence", "transmissionSequence",
            "transmissions", "receivedTransmissions", "receptions", "targetEvictions", "opportunities", "received",
            "stationDisabled", "channelDisabled", "outsideHorizon", "insufficientMargin", "probabilisticLoss",
            "oldestReception", "latestReception", "oldestAvailable", "latestAvailable", "truncatedBefore", "nextAfter"}
  }

  // ----- Documents as tokens -----

  function Tokens(j: Json): seq<Token>
    decreases j, 0
  {
    match j
    case Object(members) => [OpenObject] + MemberTokens(members) + [CloseObject]
    case Array(items) => [OpenArray] + ItemTokens(items) + [CloseArray]
    case String(s) => [Text(s)]
    case Atom => [Literal]
  }

  function MemberTokens(members: seq<Member>): seq<Token>
    decreases members, 1
  {
    if members == [] then []
    else
      var m := members[|members| - 1];
      MemberTokens(members[..|members| - 1]) + [Text(m.key)] + Tokens(m.value)
  }

  function ItemTokens(items: seq<Json>): seq<Token>
    decreases items, 1
  {
    if items == [] then [] else ItemTokens(items[..|items| - 1]) + Tokens(items[|items| - 1])
  }

  // ----- The walk: every string directly under a decimal key is canonical -----

  predicate Canonical(key: string, value: Json) {
    value.String? && DecimalField(key) ==> Decimal.Parse(value.s).Some?
  }

  predicate Accepts(j: Json)
    decreases j, 0
  {
    match j
    case Object(members) => AcceptsMembers(members)
    case Array(items) => AcceptsItems(items)
    case String(_) => true
    case Atom => true
  }

  predicate AcceptsMembers(members: seq<Member>)
    decreases members, 1
  {
    members == [] ||
    var m := members[|members| - 1];
    AcceptsMembers(members[..|members| - 1]) && Canonical(m.key, m.value) && Accepts(m.value)
  }

  predicate AcceptsItems(items: seq<Json>)
    decreases items, 1
  {
    items == [] || (AcceptsItems(items[..|items| - 1]) && Accepts(items[|items| - 1]))
  }

  // ----- The scan: a stack of frames and one remembered key -----

  datatype Frame = Frame(keyed: bool, expectKey: bool)

  datatype State = State(stack: seq<Frame>, key: string)

  predicate InObject(stack: seq<Frame>) {
    stack != [] && stack[|stack| - 1].keyed
  }

  predicate ExpectsKey(stack: seq<Frame>) {
    InObject(stack) && stack[|stack| - 1].expectKey
  }

  function SetExpectKey(stack: seq<Frame>, expectKey: bool): seq<Frame> {
    if stack == [] then stack else stack[|stack| - 1 := stack[|stack| - 1].(expectKey := expectKey)]
  }

  /** A value completes the member of an enclosing object. */
  function Complete(stack: seq<Frame>): seq<Frame> {
    if InObject(stack) then SetExpectKey(stack, true) else stack
  }

  function Pop(stack: seq<Frame>): seq<Frame> {
    if stack == [] then [] else stack[..|stack| - 1]
  }

  /** One token; None rejects a noncanonical decimal. */
  function Step(s: State, t: Token): Option<State> {
    match t
    case OpenObject => Some(s.(stack := s.stack + [Frame(true, true)]))
    case OpenArray => Some(s.(stack := s.stack + [Frame(false, false)]))
    case CloseObject => Some(s.(stack := Complete(Pop(s.stack))))
    case CloseArray => Some(s.(stack := Complete(Pop(s.stack))))
    case Literal => Some(s.(stack := Complete(s.stack)))
    case Text(x) =>
      if ExpectsKey(s.stack) then Some(State(SetExpectKey(s.stack, false), x))
      else if InObject(s.stack) && DecimalField(s.key) && Decimal.Parse(x).None? then None
      else Some(s.(stack := Complete(s.stack)))
  }

  function Scan(s: State, tokens: seq<Token>): Option<State> {
    if tokens == [] then Some(s)
    else
      var p := Scan(s, tokens[..|tokens| - 1]);
      if p.None? then None else Step(p.value, tokens[|tokens| - 1])
  }

  lemma {:induction false} ScanConcat(s: State, a: seq<Token>, b: seq<Token>)
    ensures Scan(s, a + b) == if Scan(s, a).None? then None else Scan(Scan(s, a).value, b)
  {
    hide Step;
    if b == [] {
      assert a + b == a;
    } else {
      ScanConcat(s, a, b[..|b| - 1]);
      assert (a + b)[..|a + b| - 1] == a + b[..|b| - 1];
    }
  }

  lemma ScanOne(s: State, t: Token)
    ensures Scan(s, [t]) == Step(s, t)
  {
    assert [t][..0] == [];
    assert Scan(s, []) == Some(s);
  }

  // ----- Equivalence -----

  /** What the scan makes of a value: it is rejected where the walk rejects it, and otherwise the member is complete. */
  ghost predicate ScansAs(s: State, tokens: seq<Token>, ok: bool, stack: seq<Frame>) {
    var r := Scan(s, tokens);
    (r.Some? <==> ok) && (r.Some? ==> r.value.stack == stack)
  }

  lemma {:induction false} ScanValue(s: State, j: Json)
    requires !ExpectsKey(s.stack)
    ensures ScansAs(s, Tokens(j), Accepts(j) && (InObject(s.stack) ==> Canonical(s.key, j)), Complete(s.stack))
    decreases j, 0
  {
    hide DecimalField, Decimal.Parse, Scan;
    match j
    case String(x) => ScanOne(s, Text(x));
    case Atom => ScanOne(s, Literal);
    case Object(members) =>
      var inner := s.stack + [Frame(true, true)];
      ScanOne(s, OpenObject);
      ScanMembers(State(inner, s.key), members);
      Wrapped(s, OpenObject, MemberTokens(members), CloseObject, AcceptsMembers(members), inner);
    case Array(items) =>
      var inner := s.stack + [Frame(false, false)];
      ScanOne(s, OpenArray);
      ScanItems(State(inner, s.key), items);
      Wrapped(s, OpenArray, ItemTokens(items), CloseArray, AcceptsItems(items), inner);
  }

  /** A container: the frame pushed by its opening is popped by its closing. */
  lemma Wrapped(s: State, open: Token, inside: seq<Token>, close: Token, ok: bool, inner: seq<Frame>)
    requires Step(s, open) == Some(State(inner, s.key)) && inner != [] && Pop(inner) == s.stack
    requires close.CloseObject? || close.CloseArray?
    requires ScansAs(State(inner, s.key), inside, ok, inner)
    ensures ScansAs(s, [open] + inside + [close], ok, Complete(s.stack))
  {
    hide DecimalField, Decimal.Parse, Scan, Pop, Complete;
    ScanOne(s, open);
    ScanConcat(s, [open], inside);
    ScanConcat(s, [open] + inside, [close]);
    var r := Scan(State(inner, s.key), inside);
    if r.Some? {
      ScanOne(r.value, close);
    }
  }

  lemma {:induction false} ScanMembers(s: State, members: seq<Member>)
    requires ExpectsKey(s.stack)
    ensures ScansAs(s, MemberTokens(members), AcceptsMembers(members), s.stack)
    decreases members, 1
  {
    hide DecimalField, Decimal.Parse;
    if members != [] {
      var n := |members| - 1;
      var m := members[n];
      ScanMembers(s, members[..n]);
      var front := MemberTokens(members[..n]);
      ScanConcat(s, front, [Text(m.key)]);
      ScanConcat(s, front + [Text(m.key)], Tokens(m.value));
      var p := Scan(s, front);
      if p.Some? {
        ScanOne(p.value, Text(m.key));
        var q := State(SetExpectKey(s.stack, false), m.key);
        ScanValue(q, m.value);
        assert Complete(q.stack) == s.stack;
      }
    }
  }

  lemma {:induction false} ScanItems(s: State, items: seq<Json>)
    requires s.stack != [] && !InObject(s.stack)
    ensures ScansAs(s, ItemTokens(items), AcceptsItems(items), s.stack)
    decreases items, 1
  {
    hide DecimalField, Decimal.Parse;
    if items != [] {
      var n := |items| - 1;
      ScanItems(s, items[..n]);
      ScanConcat(s, ItemTokens(items[..n]), Tokens(items[n]));
      var p := Scan(s, ItemTokens(items[..n]));
      if p.Some? {
        ScanValue(p.value, items[n]);
      }
    }
  }

  /** A body is a stream of documents. */
  lemma {:induction false} ScanStream(docs: seq<Json>)
    ensures ScansAs(State([], ""), ItemTokens(docs), AcceptsItems(docs), [])
  {
    hide DecimalField, Decimal.Parse;
    if docs != [] {
      var n := |docs| - 1;
      ScanStream(docs[..n]);
      var s := State([], "");
      ScanConcat(s, ItemTokens(docs[..n]), Tokens(docs[n]));
      var p := Scan(s, ItemTokens(docs[..n]));
      if p.Some? {
        ScanValue(p.value, docs[n]);
      }
    }
  }

  lemma {:induction false} Rejected(s: State, tokens: seq<Token>, k: nat)
    requires k <= |tokens| && Scan(s, tokens[..k]).None?
    ensures Scan(s, tokens).None?
    decreases |tokens|
  {
    hide Step;
    if k < |tokens| {
      assert tokens[..|tokens| - 1][..k] == tokens[..k];
      Rejected(s, tokens[..|tokens| - 1], k);
    } else {
      assert tokens[..k] == tokens;
    }
  }

  /** checkDecimalStrings: one pass with a frame stack and one key accepts exactly the bodies whose every string directly
      under a decimal key is canonical. */
  method CheckDecimalStrings(tokens: seq<Token>, ghost docs: seq<Json>) returns (ok: bool)
    requires tokens == ItemTokens(docs)
    ensures ok <==> AcceptsItems(docs)
  {
    hide DecimalField, Decimal.Parse, AcceptsItems, ItemTokens;
    ScanStream(docs);
    var stack: seq<Frame>, key := [], "";
    for i := 0 to |tokens|
      invariant Scan(State([], ""), tokens[..i]) == Some(State(stack, key))
    {
      assert tokens[..i + 1][..i] == tokens[..i];
      var t := tokens[i];
      if t == OpenObject {
        stack := stack + [Frame(true, true)];
        continue;
      }
      if t == OpenArray {
        stack := stack + [Frame(false, false)];
        continue;
      }
      if t == CloseObject || t == CloseArray {
        stack := Pop(stack);
      } else if t.Text? {
        if ExpectsKey(stack) {
          key := t.s;
          stack := stack[|stack| - 1 := stack[|stack| - 1].(expectKey := false)];
          continue;
        }
        if InObject(stack) && DecimalField(key) && Decimal.Parse(t.s).None? {
          Rejected(State([], ""), tokens, i + 1);
          return false;
        }
      }
      if InObject(stack) {
        stack := stack[|stack| - 1 := stack[|stack| - 1].(expectKey := true)];
      }
    }
    assert tokens[..|tokens|] == tokens;
    ok := true;
  }
}

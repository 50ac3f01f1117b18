/** The predicate walker: a slot machine over the tokens of a triples block, and the printer it
    inverts. */
module PredicateWalker {

  /** One atom of a term: a full or prefixed name, the `a` shorthand, or a variable. */
  datatype Atom = Name(iri: string) | TypeVerb | Var(name: string)

  /** A term is an atom, or a property path of several. */
  type Term = seq<Atom>

  datatype Token = Dot | Semi | Comma | Open | Close | Word(term: Term)

  datatype Slot = S | P | O

  // ---- the walker --------------------------------------------------------------------------------

  function NamesOf(t: Term): set<string> {
    set i | 0 <= i < |t| && t[i].Name? :: t[i].iri
  }

  /** The predicates a term in the predicate slot contributes: none for `a` or a variable. */
  function Verbs(t: Term): set<string> {
    if t == [] || t == [TypeVerb] || t[0].Var? then {} else NamesOf(t)
  }

  function NextSlot(slot: Slot, t: Token): Slot {
    match t
    case Dot => S
    case Semi => P
    case Comma => O
    case Open => P
    case Close => O
    case Word(_) => if slot == S then P else O
  }

  function Counted(slot: Slot, t: Token): set<string> {
    if t.Word? && slot == P then Verbs(t.term) else {}
  }

  function SlotAfter(ts: seq<Token>, slot: Slot): Slot {
    if ts == [] then slot else NextSlot(SlotAfter(ts[..|ts| - 1], slot), ts[|ts| - 1])
  }

  function Found(ts: seq<Token>, slot: Slot): set<string> {
    if ts == [] then {}
    else Found(ts[..|ts| - 1], slot) + Counted(SlotAfter(ts[..|ts| - 1], slot), ts[|ts| - 1])
  }

  /** `_predicate_tokens`: the loop over the tokens of the query body. */
  method PredicateTokens(ts: seq<Token>) returns (toks: set<string>)
    ensures toks == Found(ts, S)
  {
    toks := {};
    var slot := S;
    for i := 0 to |ts|
      invariant slot == SlotAfter(ts[..i], S) && toks == Found(ts[..i], S)
    {
      assert ts[..i + 1][..i] == ts[..i];
      match ts[i] {
        case Dot => slot := S;
        case Semi => slot := P;
        case Comma => slot := O;
        case Open => slot := P;
        case Close => slot := O;
        case Word(t) =>
          if slot == P {
            if t != [] && t != [TypeVerb] && !t[0].Var? {
              toks := toks + NamesOf(t);
            }
            slot := O;
          } else if slot == S {
            slot := P;
          } else {
            slot := O;
          }
      }
    }
    assert ts[..|ts|] == ts;
  }

  // ---- triples blocks and their tokens ------------------------------------------------------------

  /** An object: a term, a literal (which is no token of the walk), or a blank node. */
  datatype Obj = TermObj(term: Term) | Literal | Anon | Node(pol: Pol)

  datatype Objs = OneObj(o: Obj) | MoreObjs(o: Obj, rest: Objs)

  /** A predicate-object list; `Trail` leaves a semicolon behind its last pair. */
  datatype Pol = Last(verb: Term, objs: Objs) | Trail(verb: Term, objs: Objs) | Then(verb: Term, objs: Objs, rest: Pol)

  /** A subject: a term with its list, or a blank node's list with or without one more after it. */
  datatype Triples = Of(subject: Term, pol: Pol) | Alone(node: Pol) | NodeOf(node: Pol, pol: Pol)

  type Block = seq<Triples>

  function PrintObj(o: Obj): seq<Token> {
    match o
    case TermObj(t) => [Word(t)]
    case Literal => []
    case Anon => [Open, Close]
    case Node(pol) => [Open] + PrintPol(pol) + [Close]
  }

  function PrintObjs(os: Objs): seq<Token> {
    match os
    case OneObj(o) => PrintObj(o)
    case MoreObjs(o, rest) => PrintObj(o) + [Comma] + PrintObjs(rest)
  }

  function PrintPol(p: Pol): seq<Token> {
    match p
    case Last(verb, objs) => [Word(verb)] + PrintObjs(objs)
    case Trail(verb, objs) => [Word(verb)] + PrintObjs(objs) + [Semi]
    case Then(verb, objs, rest) => [Word(verb)] + PrintObjs(objs) + [Semi] + PrintPol(rest)
  }

  function PrintTriples(t: Triples): seq<Token> {
    match t
    case Of(subject, pol) => [Word(subject)] + PrintPol(pol)
    case Alone(node) => [Open] + PrintPol(node) + [Close]
    case NodeOf(node, pol) => [Open] + PrintPol(node) + [Close] + PrintPol(pol)
  }

  function Print(b: Block): seq<Token> {
    if b == [] then [] else Print(b[..|b| - 1]) + PrintTriples(b[|b| - 1]) + [Dot]
  }

  // ---- the predicates a block uses -------------------------------------------------------------------

  function UsedObj(o: Obj): set<string> {
    if o.Node? then UsedPol(o.pol) else {}
  }

  function UsedObjs(os: Objs): set<string> {
    match os
    case OneObj(o) => UsedObj(o)
    case MoreObjs(o, rest) => UsedObj(o) + UsedObjs(rest)
  }

  function UsedPol(p: Pol): set<string> {
    match p
    case Last(verb, objs) => Verbs(verb) + UsedObjs(objs)
    case Trail(verb, objs) => Verbs(verb) + UsedObjs(objs)
    case Then(verb, objs, rest) => Verbs(verb) + UsedObjs(objs) + UsedPol(rest)
  }

  /** What a list uses besides its first verb. */
  function AfterFirst(p: Pol): set<string> {
    match p
    case Last(_, objs) => UsedObjs(objs)
    case Trail(_, objs) => UsedObjs(objs)
    case Then(_, objs, rest) => UsedObjs(objs) + UsedPol(rest)
  }

  function UsedTriples(t: Triples): set<string> {
    match t
    case Of(_, pol) => UsedPol(pol)
    case Alone(node) => UsedPol(node)
    case NodeOf(node, pol) => UsedPol(node) + UsedPol(pol)
  }

  function Used(b: Block): set<string> {
    if b == [] then {} else Used(b[..|b| - 1]) + UsedTriples(b[|b| - 1])
  }

  /** The verbs the walk takes for objects: the first one after a blank-node subject. */
  function LostTriples(t: Triples): set<string> {
    if t.NodeOf? then Verbs(t.pol.verb) else {}
  }

  function Lost(b: Block): set<string> {
    if b == [] then {} else Lost(b[..|b| - 1]) + LostTriples(b[|b| - 1])
  }

  function SeenTriples(t: Triples): set<string> {
    match t
    case Of(_, pol) => UsedPol(pol)
    case Alone(node) => UsedPol(node)
    case NodeOf(node, pol) => UsedPol(node) + AfterFirst(pol)
  }

  /** The verbs the walk sees. */
  function Seen(b: Block): set<string> {
    if b == [] then {} else Seen(b[..|b| - 1]) + SeenTriples(b[|b| - 1])
  }

  // ---- walking what was printed -----------------------------------------------------------------------

  lemma {:induction false} WalkAppend(a: seq<Token>, b: seq<Token>, slot: Slot)
    ensures SlotAfter(a + b, slot) == SlotAfter(b, SlotAfter(a, slot))
    ensures Found(a + b, slot) == Found(a, slot) + Found(b, SlotAfter(a, slot))
  {
    if b == [] {
      assert a + b == a;
    } else {
      assert (a + b)[..|a + b| - 1] == a + b[..|b| - 1];
      WalkAppend(a, b[..|b| - 1], slot);
    }
  }

  lemma WalkOne(t: Token, slot: Slot)
    ensures SlotAfter([t], slot) == NextSlot(slot, t) && Found([t], slot) == Counted(slot, t)
  {
    assert [t][..0] == [];
  }

  lemma {:induction false} WalkObj(o: Obj)
    ensures SlotAfter(PrintObj(o), O) == O && Found(PrintObj(o), O) == UsedObj(o)
    decreases o, 0
  {
    match o
    case TermObj(t) =>
      WalkOne(Word(t), O);
    case Literal =>
    case Anon =>
      WalkOne(Open, O);
      WalkOne(Close, P);
      WalkAppend([Open], [Close], O);
      assert [Open] + [Close] == [Open, Close];
    case Node(pol) =>
      WalkOne(Open, O);
      WalkPol(pol, P);
      WalkAppend([Open], PrintPol(pol), O);
      WalkOne(Close, SlotAfter(PrintPol(pol), P));
      WalkAppend([Open] + PrintPol(pol), [Close], O);
  }

  lemma {:induction false} WalkObjs(os: Objs)
    ensures SlotAfter(PrintObjs(os), O) == O && Found(PrintObjs(os), O) == UsedObjs(os)
    decreases os, 0
  {
    match os
    case OneObj(o) =>
      WalkObj(o);
    case MoreObjs(o, rest) =>
      WalkObj(o);
      WalkObjs(rest);
      WalkOne(Comma, O);
      WalkAppend(PrintObj(o), [Comma], O);
      WalkAppend(PrintObj(o) + [Comma], PrintObjs(rest), O);
  }

  /** One verb and its objects, entered in the predicate slot or, wrongly, in the object slot. */
  lemma {:induction false} WalkPair(verb: Term, objs: Objs, slot: Slot)
    requires slot != S
    ensures var ts := [Word(verb)] + PrintObjs(objs);
            SlotAfter(ts, slot) == O && Found(ts, slot) == (if slot == P then Verbs(verb) else {}) + UsedObjs(objs)
    decreases objs, 1
  {
    WalkOne(Word(verb), slot);
    WalkObjs(objs);
    WalkAppend([Word(verb)], PrintObjs(objs), slot);
  }

  /** A list walked from the predicate slot yields all its verbs; from the object slot, all
      but the first. It never ends in the subject slot. */
  lemma {:induction false} WalkPol(p: Pol, slot: Slot)
    requires slot != S
    ensures SlotAfter(PrintPol(p), slot) != S
    ensures Found(PrintPol(p), slot) == if slot == P then UsedPol(p) else AfterFirst(p)
    decreases p, 2
  {
    WalkPair(p.verb, p.objs, slot);
    var pair := [Word(p.verb)] + PrintObjs(p.objs);
    match p
    case Last(_, _) =>
    case Trail(_, _) =>
      WalkOne(Semi, O);
      WalkAppend(pair, [Semi], slot);
    case Then(_, _, rest) =>
      WalkOne(Semi, O);
      WalkAppend(pair, [Semi], slot);
      WalkPol(rest, P);
      WalkAppend(pair + [Semi], PrintPol(rest), slot);
  }

  lemma WalkNode(node: Pol)
    ensures var ts := [Open] + PrintPol(node) + [Close]; SlotAfter(ts, S) == O && Found(ts, S) == UsedPol(node)
  {
    WalkOne(Open, S);
    WalkPol(node, P);
    WalkAppend([Open], PrintPol(node), S);
    WalkOne(Close, SlotAfter(PrintPol(node), P));
    WalkAppend([Open] + PrintPol(node), [Close], S);
  }

  lemma WalkTriples(t: Triples)
    ensures Found(PrintTriples(t), S) == SeenTriples(t)
  {
    match t
    case Of(subject, pol) =>
      WalkOne(Word(subject), S);
      WalkPol(pol, P);
      WalkAppend([Word(subject)], PrintPol(pol), S);
    case Alone(node) =>
      WalkNode(node);
    case NodeOf(node, pol) =>
      WalkNode(node);
      WalkPol(pol, O);
      WalkAppend([Open] + PrintPol(node) + [Close], PrintPol(pol), S);
  }

  lemma {:induction false} WalkBlock(b: Block)
    ensures SlotAfter(Print(b), S) == S && Found(Print(b), S) == Seen(b)
  {
    if b != [] {
      var init, t := b[..|b| - 1], b[|b| - 1];
      WalkBlock(init);
      WalkTriples(t);
      WalkAppend(Print(init), PrintTriples(t), S);
      WalkOne(Dot, SlotAfter(PrintTriples(t), S));
      WalkAppend(Print(init) + PrintTriples(t), [Dot], S);
    }
  }

  lemma FirstVerb(p: Pol)
    ensures UsedPol(p) == Verbs(p.verb) + AfterFirst(p)
  {
  }

  lemma {:induction false} SeenAndLost(b: Block)
    ensures Used(b) == Seen(b) + Lost(b)
  {
    if b != [] {
      SeenAndLost(b[..|b| - 1]);
      if b[|b| - 1].NodeOf? {
        FirstVerb(b[|b| - 1].pol);
      }
    }
  }

  /** The walker never reports an object or a subject, and it inverts the printer exactly when
      every verb right after a blank-node subject is also used elsewhere in the block. */
  lemma WalkInvertsPrint(b: Block)
    ensures Found(Print(b), S) <= Used(b)
    ensures Found(Print(b), S) == Used(b) <==> Lost(b) <= Seen(b)
  {
    WalkBlock(b);
    SeenAndLost(b);
  }

  lemma {:induction false} NothingLost(b: Block)
    requires forall i :: 0 <= i < |b| ==> !b[i].NodeOf?
    ensures Lost(b) == {}
  {
    if b != [] {
      NothingLost(b[..|b| - 1]);
    }
  }

  /** For every block whose blank nodes stand in object position, or alone, the walker returns
      exactly the predicates used. */
  lemma WalkInvertsObjectNodes(b: Block)
    requires forall i :: 0 <= i < |b| ==> !b[i].NodeOf?
    ensures Found(Print(b), S) == Used(b)
  {
    NothingLost(b);
    WalkInvertsPrint(b);
  }

  /** `[ ex:p ?o ] ex:q ?r .`: the walk misses `ex:q`. */
  lemma SubjectNodeLosesVerb()
    ensures var b := [NodeOf(Last([Name("ex:p")], OneObj(TermObj([Var("o")]))), Last([Name("ex:q")], OneObj(TermObj([Var("r")]))))];
            "ex:q" in Used(b) && "ex:q" !in Found(Print(b), S)
  {
    var p, q: Pol := Last([Name("ex:p")], OneObj(TermObj([Var("o")]))), Last([Name("ex:q")], OneObj(TermObj([Var("r")])));
    var b := [NodeOf(p, q)];
    assert b[..0] == [];
    WalkBlock(b);
    assert [Name("ex:q")][0].iri in NamesOf([Name("ex:q")]);
    assert NamesOf([Name("ex:p")]) == {"ex:p"};
    assert "ex:q"[3] != "ex:p"[3];
  }
}

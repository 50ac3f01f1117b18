/** Ancestor time slices on the document side: the same walk as the year slicer, over a
    scenario document's `class_time` and `subclass_of`. */
module DocSlices {
  import opened Vocabulary
  import opened Closure
  import opened Hierarchy
  import opened YearSlicer
  import opened YearForm

  type Classes = set<(Cls, Cls)>

  /** A `class_time` entry: its scope and its year base, if it slices one. */
  datatype DocEntry = DocEntry(scope: Scope, base: Option<Cls>)

  datatype Doc = Doc(sub: Classes, time: map<Cls, DocEntry>)

  /** Bases and the hierarchy are timeless, and year slices carry the conventional name. */
  ghost predicate WellNamed(known: Classes, doc: Doc) {
    && Timeless(known)
    && (forall e {:trigger e in doc.sub} :: e in doc.sub && e.0.Named? ==> e.1.Named?)
    && (forall c :: c in doc.time && doc.time[c].base.Some? ==> Conventional(c, doc.time[c]))
  }

  predicate Conventional(c: Cls, entry: DocEntry) {
    entry.base.Some? && entry.base.value.Named? && c == Slice(entry.base.value, entry.scope)
  }

  /** The (base, scope) pairs the document slices. */
  function DocStamps(time: map<Cls, DocEntry>): set<(Cls, Scope)> {
    set c | c in time && time[c].base.Some? :: (time[c].base.value, time[c].scope)
  }

  function DocTax(known: Classes, sub: Classes): Classes {
    Taxonomy(known + sub)
  }

  /** Every ancestor slice of the document's slices. */
  function DocMade(tax: Classes, time: map<Cls, DocEntry>): set<(Cls, Scope)> {
    AncestorsMade(tax, EntriesAt(DocStamps(time)))
  }

  /** An ancestor slice's name is already registered with another scope. */
  predicate Collides(time: map<Cls, DocEntry>, made: set<(Cls, Scope)>) {
    exists m | m in made :: Slice(m.0, m.1) in time && time[Slice(m.0, m.1)].scope != m.1
  }

  /** Register the slices that are not registered yet. */
  function Registered(time: map<Cls, DocEntry>, made: set<(Cls, Scope)>): map<Cls, DocEntry> {
    (map m | m in made :: Slice(m.0, m.1) := DocEntry(m.1, Some(m.0))) + time
  }

  function DocDerived(known: Classes, doc: Doc): Doc {
    var tax := DocTax(known, doc.sub);
    var made := DocMade(tax, doc.time);
    Doc(doc.sub + AncestorEdges(tax, EntriesAt(DocStamps(doc.time))) + Downs(made), Registered(doc.time, made))
  }

  // ---- the loops -----------------------------------------------------------------------------

  lemma RegisteredMember(time: map<Cls, DocEntry>, made: set<(Cls, Scope)>, c: Cls)
    ensures c in Registered(time, made) <==> c in time || (c.Slice? && (c.base, c.scope) in made)
    ensures c in time ==> Registered(time, made)[c] == time[c]
    ensures c !in time && c in Registered(time, made) ==> Registered(time, made)[c] == DocEntry(c.scope, Some(c.base))
  {
    if c.Slice? && (c.base, c.scope) in made {
      var m := (c.base, c.scope);
      assert m in made && c == Slice(m.0, m.1);
    }
  }

  lemma RegisterMore(time: map<Cls, DocEntry>, a: set<(Cls, Scope)>, b: set<(Cls, Scope)>)
    ensures Registered(Registered(time, a), b) == Registered(time, a + b)
    ensures Collides(time, a + b) <==> Collides(time, a) || Collides(time, b)
    ensures Collides(Registered(time, a), b) <==> Collides(time, b)
  {
    var once, twice, all := Registered(time, a), Registered(Registered(time, a), b), Registered(time, a + b);
    forall c ensures c in twice <==> c in all
      ensures c in twice ==> twice[c] == all[c]
    {
      RegisteredMember(time, a, c);
      RegisteredMember(once, b, c);
      RegisteredMember(time, a + b, c);
    }
    forall m | m in b
      ensures Slice(m.0, m.1) in once && once[Slice(m.0, m.1)].scope != m.1
          <==> Slice(m.0, m.1) in time && time[Slice(m.0, m.1)].scope != m.1
    {
      RegisteredMember(time, a, Slice(m.0, m.1));
    }
  }

  lemma RegisterOne(time: map<Cls, DocEntry>, m: (Cls, Scope))
    ensures var name := Slice(m.0, m.1);
            && Registered(time, {m}) == (if name in time then time else time[name := DocEntry(m.1, Some(m.0))])
            && (Collides(time, {m}) <==> name in time && time[name].scope != m.1)
  {
    var name := Slice(m.0, m.1);
    assert (map n | n in {m} :: Slice(n.0, n.1) := DocEntry(n.1, Some(n.0))) == map[name := DocEntry(m.1, Some(m.0))];
    assert m in {m};
  }

  /** `setdefault` for one class's parents, or the name that collides. */
  method Register(time: map<Cls, DocEntry>, made: set<(Cls, Scope)>) returns (r: Result<map<Cls, DocEntry>, Cls>)
    ensures r.Err? <==> Collides(time, made)
    ensures r.Ok? ==> r.value == Registered(time, made)
  {
    var out, todo := time, made;
    assert Registered(time, {}) == time;
    while todo != {}
      invariant todo <= made && out == Registered(time, made - todo) && !Collides(time, made - todo)
      decreases todo
    {
      var m :| m in todo;
      ghost var done := made - todo;
      assert made - (todo - {m}) == done + {m} && made == done + todo;
      RegisterMore(time, done, {m});
      RegisterMore(time, done + {m}, todo);
      assert done + {m} + todo == made;
      RegisterOne(out, m);
      var name := Slice(m.0, m.1);
      if name in out && out[name].scope != m.1 {
        return Err(name);
      }
      if name !in out {
        out := out[name := DocEntry(m.1, Some(m.0))];
      }
      todo := todo - {m};
    }
    assert made - todo == made;
    r := Ok(out);
  }

  /** The taxonomy out of timeless classes does not change while slices are linked. */
  ghost predicate SameAtBases(known: Classes, sub: Classes, now: Classes) {
    forall e: (Cls, Cls) :: e.0.Named? ==> (e in DocTax(known, now) <==> e in DocTax(known, sub))
  }

  /** The triples one visited class adds. */
  function LinksAt(tax: Classes, slc: Cls, base: Cls, t: Scope, seen: set<Cls>): Classes {
    EdgesFrom(tax, slc, base, t, seen) + Downs(MadeFrom(tax, t, seen))
  }

  lemma LinksSnoc(tax: Classes, base: Cls, t: Scope, seen: set<Cls>, x: Cls)
    ensures LinksAt(tax, Slice(base, t), base, t, seen + {x})
         == LinksAt(tax, Slice(base, t), base, t, seen) + LinksAt(tax, Slice(base, t), base, t, {x})
    ensures forall e :: e in LinksAt(tax, Slice(base, t), base, t, {x}) ==> e.0.Slice?
    ensures MadeFrom(tax, t, seen + {x}) == MadeFrom(tax, t, seen) + MadeFrom(tax, t, {x})
  {
    FromUnion(tax, Slice(base, t), base, t, seen, {x});
    SliceTriplesUnion(MadeFrom(tax, t, seen), MadeFrom(tax, t, {x}));
  }

  ghost predicate TimelessFrom(tax: Classes) {
    forall e {:trigger e in tax} :: e in tax && e.0.Named? ==> e.1.Named?
  }

  lemma ReachFromNamed(tax: Classes, x: Cls)
    requires TimelessFrom(tax) && x.Named?
    ensures forall y :: y in Closure.Reach(tax, {x}) ==> y.Named?
  {
    var r := Closure.Reach(tax, {x});
    var named := set y | y in r && y.Named?;
    forall e | e in tax && e.0 in named ensures e.1 in named {
      assert e.1 in Image(tax, r);
    }
    ReachLeast(tax, {x}, named);
  }

  /** The links and entries once the classes in `seen` have been visited. */
  ghost predicate Walked(known: Classes, sub: Classes, now: Classes, time: map<Cls, DocEntry>, base: Cls, t: Scope,
                         seen: set<Cls>, links: Classes, entries: map<Cls, DocEntry>)
  {
    var tax := DocTax(known, sub);
    && links == now + LinksAt(tax, Slice(base, t), base, t, seen) && SameAtBases(known, sub, links)
    && entries == Registered(time, MadeFrom(tax, t, seen)) && !Collides(time, MadeFrom(tax, t, seen))
  }

  lemma WalkedOneMore(known: Classes, sub: Classes, now: Classes, time: map<Cls, DocEntry>, base: Cls, t: Scope,
                      seen: set<Cls>, links: Classes, entries: map<Cls, DocEntry>, x: Cls)
    requires Walked(known, sub, now, time, base, t, seen, links, entries)
    ensures var tax := DocTax(known, sub);
            var made := MadeFrom(tax, t, {x});
            && (Collides(entries, made) <==> Collides(time, made))
            && (!Collides(entries, made) ==>
                  Walked(known, sub, now, time, base, t, seen + {x}, links
                      + LinksAt(tax, Slice(base, t), base, t, {x}), Registered(entries, made)))
  {
    var tax := DocTax(known, sub);
    LinksSnoc(tax, base, t, seen, x);
    RegisterMore(time, MadeFrom(tax, t, seen), MadeFrom(tax, t, {x}));
  }

  /** Link one visited class's slice to its parents' slices, and register those. */
  method LinkParents(known: Classes, links: Classes, entries: map<Cls, DocEntry>, parents: set<Cls>, base: Cls,
                     t: Scope, x: Cls, ghost tax: Classes)
    returns (more: Classes, r: Result<map<Cls, DocEntry>, Cls>)
    requires parents == Image(tax, {x})
    ensures more == links + LinksAt(tax, Slice(base, t), base, t, {x})
    ensures r.Err? <==> Collides(entries, MadeFrom(tax, t, {x}))
    ensures r.Ok? ==> r.value == Registered(entries, MadeFrom(tax, t, {x}))
  {
    var made := set p | p in parents :: (p, t);
    more := links + (set p | p in parents :: (Child(Slice(base, t), base, x, t), Slice(p, t))) + Downs(made);
    assert made == MadeFrom(tax, t, {x});
    r := Register(entries, made);
  }

  /** Walk up from one slice's base, reading parents off the links made so far. */
  method WalkDoc(known: Classes, now: Classes, time: map<Cls, DocEntry>, base: Cls, t: Scope, ghost sub: Classes)
    returns (links: Classes, r: Result<map<Cls, DocEntry>, Cls>)
    requires SameAtBases(known, sub, now) && base.Named? && TimelessFrom(DocTax(known, sub))
    ensures var tax := DocTax(known, sub);
            var reach := Closure.Reach(tax, {base});
            && (r.Err? <==> Collides(time, MadeFrom(tax, t, reach)))
            && (r.Ok? ==> Walked(known, sub, now, time, base, t, reach, links, r.value))
  {
    ghost var tax, reach := DocTax(known, sub), Closure.Reach(DocTax(known, sub), {base});
    ReachFromNamed(tax, base);
    links := now;
    var entries, stack, seen := time, [base], {};
    while stack != []
      invariant seen <= reach && (forall x :: x in stack ==> x in reach) && (base in seen || base in stack)
      invariant forall e :: e in tax && e.0 in seen ==> e.1 in seen || e.1 in stack
      invariant Walked(known, sub, now, time, base, t, seen, links, entries)
      decreases reach - seen, |stack|
    {
      var x, rest := stack[|stack| - 1], stack[..|stack| - 1];
      assert stack == rest + [x];
      if x in seen {
        stack := rest;
      } else {
        var parents := Image(DocTax(known, links), {x});
        assert Image(DocTax(known, links), {x}) == Image(DocTax(known, sub), {x});
        WalkedOneMore(known, sub, now, time, base, t, seen, links, entries, x);
        links, r := LinkParents(known, links, entries, parents, base, t, x, tax);
        if r.Err? {
          assert Collides(time, MadeFrom(tax, t, reach));
          return;
        }
        assert parents <= Image(tax, reach);
        entries, seen := r.value, seen + {x};
        stack := PushAll(rest, parents);
      }
    }
    assert Closed(tax, seen);
    ReachLeast(tax, {base}, seen);
    assert seen == reach;
    r := Ok(entries);
  }

  /** The links and entries once the given stamps have been walked. */
  ghost predicate DocWalked(known: Classes, doc: Doc, stamps: set<(Cls, Scope)>, links: Classes,
                            entries: map<Cls, DocEntry>) {
    var tax := DocTax(known, doc.sub);
    var made := AncestorsMade(tax, EntriesAt(stamps));
    && links == doc.sub + AncestorEdges(tax, EntriesAt(stamps)) + Downs(made) && SameAtBases(known, doc.sub, links)
    && entries == Registered(doc.time, made) && !Collides(doc.time, made)
  }

  lemma AncestorsSnoc(tax: Classes, stamps: set<(Cls, Scope)>, m: (Cls, Scope))
    ensures AncestorEdges(tax, EntriesAt(stamps + {m}))
        == AncestorEdges(tax, EntriesAt(stamps)) + WalkEdges(tax, Slice(m.0, m.1), m.0, m.1)
    ensures AncestorsMade(tax, EntriesAt(stamps + {m}))
        == AncestorsMade(tax, EntriesAt(stamps)) + WalkMade(tax, m.0, m.1)
  {
    assert EntriesAt(stamps + {m}) == EntriesAt(stamps) + {(Slice(m.0, m.1), m.0, m.1)};
  }

  lemma Rejoin4<T>(a: set<T>, b: set<T>, c: set<T>, d: set<T>, e: set<T>)
    ensures a + b + c + (d + e) == a + (b + d) + (c + e)
  {
  }

  lemma StampsNamed(known: Classes, doc: Doc)
    requires WellNamed(known, doc)
    ensures forall m :: m in DocStamps(doc.time) ==> m.0.Named? && Slice(m.0, m.1) in doc.time
    ensures TimelessFrom(DocTax(known, doc.sub))
  {
  }

  /** Walk one more stamp. */
  method WalkNext(known: Classes, doc: Doc, links: Classes, entries: map<Cls, DocEntry>, m: (Cls, Scope),
                  ghost stamps: set<(Cls, Scope)>)
    returns (more: Classes, r: Result<map<Cls, DocEntry>, Cls>)
    requires DocWalked(known, doc, stamps, links, entries) && m.0.Named? && TimelessFrom(DocTax(known, doc.sub))
    ensures r.Err? <==> Collides(doc.time, WalkMade(DocTax(known, doc.sub), m.0, m.1))
    ensures r.Ok? ==> DocWalked(known, doc, stamps + {m}, more, r.value)
  {
    more, r := WalkDoc(known, links, entries, m.0, m.1, doc.sub);
    assert
      && (r.Err? <==> Collides(doc.time, WalkMade(DocTax(known, doc.sub), m.0, m.1)))
      && (r.Ok? ==> DocWalked(known, doc, stamps + {m}, more, r.value))
    by {
      var tax := DocTax(known, doc.sub);
      var before, made := AncestorsMade(tax, EntriesAt(stamps)), WalkMade(tax, m.0, m.1);
      AncestorsSnoc(tax, stamps, m);
      RegisterMore(doc.time, before, made);
      SliceTriplesUnion(before, made);
      Rejoin4(doc.sub, AncestorEdges(tax, EntriesAt(stamps)), Downs(before),
              WalkEdges(tax, Slice(m.0, m.1), m.0, m.1), Downs(made));
    }
  }

  method WalkAll(known: Classes, doc: Doc, stamps: set<(Cls, Scope)>)
    returns (links: Classes, r: Result<map<Cls, DocEntry>, Cls>)
    requires (forall m :: m in stamps ==> m.0.Named?) && TimelessFrom(DocTax(known, doc.sub))
    ensures r.Err? <==> Collides(doc.time, AncestorsMade(DocTax(known, doc.sub), EntriesAt(stamps)))
    ensures r.Ok? ==> DocWalked(known, doc, stamps, links, r.value)
  {
    links := doc.sub;
    var entries := doc.time;
    var done, todo := {}, stamps;
    while todo != {}
      invariant done + todo == stamps && DocWalked(known, doc, done, links, entries)
      decreases todo
    {
      var m :| m in todo;
      links, r := WalkNext(known, doc, links, entries, m, done);
      if r.Err? {
        assert Collides(doc.time, AncestorsMade(DocTax(known, doc.sub), EntriesAt(stamps))) by {
          assert (Slice(m.0, m.1), m.0, m.1) in EntriesAt(stamps);
          assert WalkMade(DocTax(known, doc.sub), m.0, m.1) <= AncestorsMade(DocTax(known, doc.sub), EntriesAt(stamps));
        }
        return;
      }
      entries, done, todo := r.value, done + {m}, todo - {m};
    }
    assert done == stamps;
    r := Ok(entries);
  }

  /** `derive_for_doc`: walk up from every year slice the document has, or report the name of
      an ancestor slice that is registered with another scope. */
  method DeriveForDoc(known: Classes, doc: Doc) returns (r: Result<Doc, Cls>)
    requires WellNamed(known, doc)
    ensures r.Err? <==> Collides(doc.time, DocMade(DocTax(known, doc.sub), doc.time))
    ensures r.Ok? ==> r.value == DocDerived(known, doc)
  {
    StampsNamed(known, doc);
    var links, entries := WalkAll(known, doc, DocStamps(doc.time));
    if entries.Err? {
      return Err(entries.error);
    }
    r := Ok(Doc(links, entries.value));
  }

  // ---- agreement with the year slicer, and idempotence --------------------------------------

  /** The closed form of a derived document: the taxonomy copied at every lifted scope. */
  lemma DocClosedForm(known: Classes, doc: Doc, authored: Classes)
    requires WellNamed(known, doc) && AgreeAtBases(DocTax(known, doc.sub), authored)
    ensures var all := DocStamps(doc.time);
            && DocDerived(known, doc).sub
                 == doc.sub + Copies(authored, Lift(authored, all)) + Downs(DocMade(DocTax(known, doc.sub), doc.time))
            && all + DocMade(DocTax(known, doc.sub), doc.time) == Lift(authored, all)
  {
    StampsNamed(known, doc);
    EdgesAreCopies(DocTax(known, doc.sub), authored, DocStamps(doc.time));
    MadeIsLifted(DocTax(known, doc.sub), authored, DocStamps(doc.time));
  }

  /** A document that carries the year leaves of authored content, and its subclass edges. */
  ghost predicate Describes(doc: Doc, g: Graph) {
    && Plain(g)
    && doc.sub == g.sub + Downs(Stamped(g))
    && (forall c :: c in doc.time <==> c.Slice? && (c.base, c.scope) in Stamped(g))
    && (forall c :: c in doc.time ==> doc.time[c] == DocEntry(c.scope, Some(c.base)))
  }

  lemma DocSubAgrees(known: Classes, doc: Doc, g: Graph)
    requires Describes(doc, g) && Timeless(known)
    ensures DocDerived(known, doc).sub == Form(known, g).sub
    ensures DocStamps(doc.time) == Stamped(g)
    ensures Stamped(g) + DocMade(DocTax(known, doc.sub), doc.time) == Lifted(known, g)
  {
    var made, all, copies := DocMade(DocTax(known, doc.sub), doc.time), Stamped(g), Copies(Tax(known, g), Lifted(known, g));
    assert DocStamps(doc.time) == Stamped(g);
    assert DocDerived(known, doc).sub == doc.sub + copies + Downs(made) && all + made == Lifted(known, g) by {
      DocClosedForm(known, doc, Tax(known, g));
    }
    assert Downs(all) + Downs(made) == Downs(Lifted(known, g)) by {
      SliceTriplesUnion(all, made);
    }
    Reorder(g.sub, copies, Downs(all), Downs(made), Downs(Lifted(known, g)));
    assert Form(known, g).sub == g.sub + Downs(Lifted(known, g)) + Copies(Tax(known, g), Lifted(known, g));
  }

  /** The two sides agree: from the same year leaves and the same taxonomy the document
      derives exactly the subclass edges and the timed classes of the finalised graph. */
  lemma DocAgreesWithSlicer(known: Classes, doc: Doc, g: Graph)
    requires Describes(doc, g) && Timeless(known)
    ensures DocDerived(known, doc).sub == Form(known, g).sub
    ensures forall c :: c in DocDerived(known, doc).time <==> c in Timed(Form(known, g))
  {
    DocSubAgrees(known, doc, g);
    forall c ensures c in DocDerived(known, doc).time <==> c in Timed(Form(known, g)) {
      assert c in DocDerived(known, doc).time <==> c in Timed(Form(known, g)) by {
        var made := DocMade(DocTax(known, doc.sub), doc.time);
        assert Stamped(g) + made == Lifted(known, g) by {
          DocSubAgrees(known, doc, g);
        }
        RegisteredMember(doc.time, made, c);
        TimedSlice(known, g, c);
      }
    }
  }

  lemma Reorder<T>(s: set<T>, copies: set<T>, a: set<T>, b: set<T>, all: set<T>)
    requires a + b == all
    ensures s + a + copies + b == s + all + copies
  {
  }

  lemma TimedSlice(known: Classes, g: Graph, c: Cls)
    requires Plain(g)
    ensures c in Timed(Form(known, g)) <==> c.Slice? && (c.base, c.scope) in Lifted(known, g)
  {
    if c.Slice? && (c.base, c.scope) in Lifted(known, g) {
      var m := (c.base, c.scope);
      assert (c, c.scope) in Form(known, g).scope;
    }
  }

  lemma LiftBetween(tax: Classes, all: set<(Cls, Scope)>, more: set<(Cls, Scope)>)
    requires all <= more <= Lift(tax, all)
    ensures Lift(tax, more) == Lift(tax, all)
  {
    LiftAgain(tax, tax, all, all);
    forall m | m in Lift(tax, more) ensures m in Lift(tax, Lift(tax, all) + all) {
      var s :| s in more && m.0 in Closure.Reach(tax, {s.0}) && m.1 == s.1;
      assert s in Lift(tax, all) + all;
    }
  }

  /** The timeless part of a document's taxonomy. */
  function AtBases(tax: Classes): Classes {
    set e {:trigger e in tax} | e in tax && e.0.Named?
  }

  lemma LiftNamed(authored: Classes, stamps: set<(Cls, Scope)>)
    requires Timeless(authored) && forall m :: m in stamps ==> m.0.Named?
    ensures forall m :: m in Lift(authored, stamps) ==> m.0.Named?
  {
    forall m | m in Lift(authored, stamps) ensures m.0.Named? {
      var s :| s in stamps && m.0 in Closure.Reach(authored, {s.0}) && m.1 == s.1;
      ReachNamed(authored, s.0);
    }
  }

  /** A derived document is well named and has the same taxonomy out of timeless classes. */
  lemma OnceWellNamed(known: Classes, doc: Doc, authored: Classes)
    requires WellNamed(known, doc) && AgreeAtBases(DocTax(known, doc.sub), authored)
    ensures WellNamed(known, DocDerived(known, doc))
    ensures AgreeAtBases(DocTax(known, DocDerived(known, doc).sub), authored)
  {
    var once, made := DocDerived(known, doc), DocMade(DocTax(known, doc.sub), doc.time);
    assert forall e :: e in DocDerived(known, doc).sub ==> e in doc.sub || e.0.Slice?;
    assert doc.sub <= DocDerived(known, doc).sub;
    StampsNamed(known, doc);
    DocClosedForm(known, doc, authored);
    LiftNamed(authored, DocStamps(doc.time));
    forall e: (Cls, Cls) | e.0.Named?
      ensures e in DocTax(known, once.sub) <==> e in DocTax(known, doc.sub)
    {
    }
    forall c | c in once.time && once.time[c].base.Some? ensures Conventional(c, once.time[c]) {
      RegisteredMember(doc.time, made, c);
      if c !in doc.time {
        assert (c.base, c.scope) in Lift(authored, DocStamps(doc.time));
      }
    }
  }

  lemma MadeBelow(tax: Classes, authored: Classes, all: set<(Cls, Scope)>, b: (Cls, Scope), s: (Cls, Scope))
    requires AgreeAtBases(tax, authored) && b in all && b.0.Named? && s.0 in Closure.Reach(authored, {b.0})
    requires s.1 == b.1
    ensures MadeFrom(authored, s.1, Closure.Reach(authored, {s.0})) <= AncestorsMade(tax, EntriesAt(all))
  {
    ReachAbsorbs(authored, {b.0}, s.0);
    ReachAtBase(tax, authored, b.0);
    assert (Slice(b.0, b.1), b.0, b.1) in EntriesAt(all);
    assert authored <= tax;
    forall m | m in MadeFrom(authored, s.1, Closure.Reach(authored, {s.0})) ensures m in WalkMade(tax, b.0, b.1) {
      var e :| e in authored && e.0 in Closure.Reach(authored, {s.0}) && e.1 == m.0;
      assert e in tax && e.0 in Closure.Reach(tax, {b.0});
    }
  }

  /** Walking from slices already made makes nothing new. */
  lemma MadeAgain(tax: Classes, tax2: Classes, authored: Classes, all: set<(Cls, Scope)>, more: set<(Cls, Scope)>)
    requires AgreeAtBases(tax, authored) && AgreeAtBases(tax2, authored)
    requires (forall m :: m in all ==> m.0.Named?) && more <= Lift(authored, all)
    ensures AncestorsMade(tax2, EntriesAt(more)) <= AncestorsMade(tax, EntriesAt(all))
  {
    LiftNamed(authored, all);
    forall n, m | n in EntriesAt(more) && m in WalkMade(tax2, n.1, n.2)
      ensures m in AncestorsMade(tax, EntriesAt(all))
    {
      var b :| b in all && n.1 in Closure.Reach(authored, {b.0}) && n.2 == b.1;
      ReachAtBase(tax2, authored, n.1);
      ReachNamed(authored, n.1);
      MadeBelow(tax, authored, all, b, (n.1, n.2));
      var e :| e in tax2 && e.0 in Closure.Reach(tax2, {n.1}) && e.1 == m.0;
      assert e in authored;
      assert m in MadeFrom(authored, n.2, Closure.Reach(authored, {n.1}));
    }
  }

  lemma RegisterAgain(time: map<Cls, DocEntry>, made: set<(Cls, Scope)>, again: set<(Cls, Scope)>)
    requires again <= made && !Collides(time, made)
    ensures !Collides(Registered(time, made), again)
    ensures Registered(Registered(time, made), again) == Registered(time, made)
  {
    RegisterMore(time, made, again);
    assert made + again == made;
    assert !Collides(time, again);
  }

  /** `derive_for_doc` is idempotent: a second run links and registers nothing new. */
  lemma DocIdempotent(known: Classes, doc: Doc)
    requires WellNamed(known, doc) && !Collides(doc.time, DocMade(DocTax(known, doc.sub), doc.time))
    ensures var once := DocDerived(known, doc);
            && !Collides(once.time, DocMade(DocTax(known, once.sub), once.time))
            && DocDerived(known, once) == once
  {
    var once, authored := DocDerived(known, doc), AtBases(DocTax(known, doc.sub));
    var made, again := DocMade(DocTax(known, doc.sub), doc.time), DocMade(DocTax(known, once.sub), once.time);
    assert AgreeAtBases(DocTax(known, doc.sub), AtBases(DocTax(known, doc.sub)));
    OnceWellNamed(known, doc, authored);
    assert var all, twice := DocStamps(doc.time), DocStamps(DocDerived(known, doc).time);
           all <= twice <= Lift(authored, all) by {
      var made, after := DocMade(DocTax(known, doc.sub), doc.time), DocDerived(known, doc).time;
      DocClosedForm(known, doc, authored);
      forall c | c in doc.time ensures c in after && after[c] == doc.time[c] {
        RegisteredMember(doc.time, made, c);
      }
      forall c | c in after && after[c].base.Some?
        ensures (after[c].base.value, after[c].scope) in Lift(authored, DocStamps(doc.time))
      {
        RegisteredMember(doc.time, made, c);
        LiftSelf(authored, DocStamps(doc.time));
      }
    }
    StampsNamed(known, doc);
    MadeAgain(DocTax(known, doc.sub), DocTax(known, once.sub), authored, DocStamps(doc.time), DocStamps(once.time));
    RegisterAgain(doc.time, made, again);
    SameSub(known, doc, once, authored, made, again);
  }

  lemma AddedAgain<T>(s: set<T>, copies: set<T>, d: set<T>, again: set<T>)
    requires again <= d
    ensures (s + copies + d) + copies + again == s + copies + d
  {
  }

  lemma SameSub(known: Classes, doc: Doc, once: Doc, authored: Classes, made: set<(Cls, Scope)>,
                again: set<(Cls, Scope)>)
    requires WellNamed(known, doc) && WellNamed(known, once) && once == DocDerived(known, doc)
    requires AgreeAtBases(DocTax(known, doc.sub), authored) && AgreeAtBases(DocTax(known, once.sub), authored)
    requires made == DocMade(DocTax(known, doc.sub), doc.time) && again == DocMade(DocTax(known, once.sub), once.time)
    requires again <= made && DocStamps(doc.time) <= DocStamps(once.time) <= Lift(authored, DocStamps(doc.time))
    ensures DocDerived(known, once).sub == once.sub
  {
    var copies := Copies(authored, Lift(authored, DocStamps(doc.time)));
    assert once.sub == doc.sub + copies + Downs(made) by {
      DocClosedForm(known, doc, authored);
    }
    assert DocDerived(known, once).sub == once.sub + copies + Downs(again) by {
      DocClosedForm(known, once, authored);
      LiftBetween(authored, DocStamps(doc.time), DocStamps(once.time));
    }
    assert Downs(again) <= Downs(made);
    AddedAgain(doc.sub, copies, Downs(made), Downs(again));
  }
}

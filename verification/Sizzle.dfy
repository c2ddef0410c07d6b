/** The element matchers that jQuery's selector engine compiles, and the one-slot cache per
  * node and direction that its combinators share within a query. */
module Sizzle {
  import opened Wrappers
  import opened Dom

  /** `next` names an element whose parent the walk skips; no selector combinator sets it. */
  datatype Combinator = Combinator(dir: Dir, first: bool, next: Option<string>)

  datatype Matcher =
    | Filter(accepts: set<nat>)
    | InContextSet
    | All(ms: seq<Matcher>)
    | Walk(inner: Matcher, comb: Combinator, base: bool, done: nat)
    | Anchor(leading: bool, one: Matcher, many: Matcher)

  datatype Key = ByDir(dir: Dir) | ByName(name: string)

  function KeyOf(comb: Combinator): Key {
    if comb.next.Some? then ByName(comb.next.value) else ByDir(comb.dir)
  }

  // ---------- The cache-free meaning of a matcher ----------

  predicate Tests(dom: Document, w: Matcher, n: nat)
    requires w.Walk? && n < |dom|
  {
    dom[n].isElement || (w.base && KeyOf(w.comb) == ByDir(ParentNode))
  }

  predicate Skips(dom: Document, run: Run, w: Matcher, n: nat)
    requires w.Walk? && n < |dom|
  {
    !run.xml && w.comb.next == Some(dom[n].name)
  }

  function Skipped(dom: Document, w: Matcher, n: nat): (p: nat)
    requires Valid(dom) && w.Walk? && n < |dom|
    ensures p <= n
  {
    match Step(dom, w.comb.dir, n)
    case Some(p) => p
    case None => n
  }

  /** The test against the context: identity with a node, or membership in a list. */
  predicate InContext(context: Context, n: nat) {
    match context
    case Single(node) => n == node
    case Many(nodes) => n in nodes
  }

  ghost predicate Matches(dom: Document, run: Run, m: Matcher, n: nat)
    requires Valid(dom) && n < |dom|
    decreases m, n, 2
  {
    match m
    case Filter(accepts) => n in accepts
    case InContextSet => InContext(run.context, n)
    case All(ms) => forall i | 0 <= i < |ms| :: Matches(dom, run, ms[i], n)
    case Walk(_, _, _, _) => Search(dom, run, m, n)
    case Anchor(leading, one, many) =>
      (!leading && (run.xml || !run.outermost)) || Matches(dom, run, if run.context.Single? then one else many, n)
  }

  /** The walk from `n`, which looks at `n`'s neighbour first. */
  ghost predicate Search(dom: Document, run: Run, w: Matcher, n: nat)
    requires Valid(dom) && n < |dom| && w.Walk?
    decreases w, n, 0
  {
    var p := Step(dom, w.comb.dir, n);
    p.Some? && Visit(dom, run, w, p.value)
  }

  /** The walk that has just arrived at `n`. */
  ghost predicate Visit(dom: Document, run: Run, w: Matcher, n: nat)
    requires Valid(dom) && n < |dom| && w.Walk?
    decreases w, n, 1
  {
    if !Tests(dom, w, n) then Search(dom, run, w, n)
    else if w.comb.first then Matches(dom, run, w.inner, n)
    else if Skips(dom, run, w, n) then Search(dom, run, w, Skipped(dom, w, n))
    else Matches(dom, run, w.inner, n) || Search(dom, run, w, n)
  }

  /** A combinator with `next` shares no slot with the others, and looks at elements only. */
  lemma NextApart(dom: Document, w: Matcher, other: Combinator, n: nat)
    requires w.Walk? && n < |dom| && w.comb.next.Some? && other.next.None?
    ensures KeyOf(w.comb) != KeyOf(other)
    ensures Tests(dom, w, n) <==> dom[n].isElement
  {
  }

  // ---------- The loop without a cache ----------

  /** The meaning of a matcher whose walks, at every depth, are the source's loop without a
    * cache: step, test, ask, go on. */
  ghost predicate Plainly(dom: Document, run: Run, m: Matcher, n: nat)
    requires Valid(dom) && n < |dom|
    decreases m, n, 1
  {
    match m
    case Filter(accepts) => n in accepts
    case InContextSet => InContext(run.context, n)
    case All(ms) => forall i | 0 <= i < |ms| :: Plainly(dom, run, ms[i], n)
    case Walk(_, _, _, _) => PlainLoop(dom, run, m, n)
    case Anchor(leading, one, many) =>
      (!leading && (run.xml || !run.outermost)) || Plainly(dom, run, if run.context.Single? then one else many, n)
  }

  ghost predicate PlainLoop(dom: Document, run: Run, w: Matcher, n: nat)
    requires Valid(dom) && n < |dom| && w.Walk?
    decreases w, n, 0
  {
    match Step(dom, w.comb.dir, n)
    case None => false
    case Some(p) =>
      if !Tests(dom, w, p) then PlainLoop(dom, run, w, p)
      else Plainly(dom, run, w.inner, p) || (!w.comb.first && PlainLoop(dom, run, w, p))
  }

  /** No combinator inside `m` sets `next`. */
  ghost predicate NoSkipping(m: Matcher) {
    match m
    case Filter(_) => true
    case InContextSet => true
    case All(ms) => forall i | 0 <= i < |ms| :: NoSkipping(ms[i])
    case Walk(inner, comb, _, _) => comb.next.None? && NoSkipping(inner)
    case Anchor(_, one, many) => NoSkipping(one) && NoSkipping(many)
  }

  /** For the combinators of selectors the search is the plain loop, in every query. */
  lemma {:induction false} PlainLoopAgrees(dom: Document, run: Run, m: Matcher, n: nat)
    requires Valid(dom) && n < |dom| && NoSkipping(m)
    ensures Matches(dom, run, m, n) == Plainly(dom, run, m, n)
    decreases m, n, 2
  {
    match m
    case Filter(_) =>
    case InContextSet =>
    case All(ms) =>
      forall i | 0 <= i < |ms| ensures Matches(dom, run, ms[i], n) == Plainly(dom, run, ms[i], n) {
        PlainLoopAgrees(dom, run, ms[i], n);
      }
    case Walk(_, _, _, _) =>
      SearchIsPlainLoop(dom, run, m, n);
    case Anchor(leading, one, many) =>
      PlainLoopAgrees(dom, run, one, n);
      PlainLoopAgrees(dom, run, many, n);
  }

  lemma {:induction false} SearchIsPlainLoop(dom: Document, run: Run, w: Matcher, n: nat)
    requires Valid(dom) && n < |dom| && w.Walk? && NoSkipping(w)
    ensures Search(dom, run, w, n) == PlainLoop(dom, run, w, n)
    decreases w, n, 1
  {
    var p := Step(dom, w.comb.dir, n);
    if p.Some? {
      PlainLoopAgrees(dom, run, w.inner, p.value);
      SearchIsPlainLoop(dom, run, w, p.value);
    }
  }

  /** A combinator with `next` is another matter: at an element of that name the branch with
    * the cache passes over the parent too, and the plain loop asks it. */
  lemma SkippingDiffers(run: Run, name: string)
    requires !run.xml && name != ""
    ensures var dom := [Node(true, "", None, None), Node(true, name, Some(0), None), Node(true, "", Some(1), None)];
            var w := Walk(Filter({0}), Combinator(ParentNode, false, Some(name)), false, 0);
            Valid(dom) && PlainLoop(dom, run, w, 2) && !Search(dom, run, w, 2)
  {
    var dom := [Node(true, "", None, None), Node(true, name, Some(0), None), Node(true, "", Some(1), None)];
    var w := Walk(Filter({0}), Combinator(ParentNode, false, Some(name)), false, 0);
    assert Valid(dom);
    assert !Search(dom, run, w, 0);
    assert Plainly(dom, run, w.inner, 0) && PlainLoop(dom, run, w, 1);
    assert Skipped(dom, w, 1) == 0;
    assert !Visit(dom, run, w, 1);
  }

  // ---------- Names of combinators ----------

  ghost function Dones(m: Matcher): set<nat> {
    match m
    case Filter(_) => {}
    case InContextSet => {}
    case All(ms) => set i, d | 0 <= i < |ms| && d in Dones(ms[i]) :: d
    case Walk(inner, _, _, done) => {done} + Dones(inner)
    case Anchor(_, one, many) => Dones(one) + Dones(many)
  }

  /** No two combinators inside `m` carry the same name. */
  ghost predicate Unique(m: Matcher) {
    match m
    case Filter(_) => true
    case InContextSet => true
    case All(ms) =>
      && (forall i | 0 <= i < |ms| :: Unique(ms[i]))
      && (forall i, j | 0 <= i < j < |ms| :: Dones(ms[i]) !! Dones(ms[j]))
    case Walk(inner, _, _, done) => done !in Dones(inner) && Unique(inner)
    case Anchor(_, one, many) => Unique(one) && Unique(many) && Dones(one) !! Dones(many)
  }

  // ---------- What the cache may hold ----------

  /** The content of a slot, as a value. */
  datatype Entry = Entry(run: nat, done: nat, result: bool)

  type View = map<(nat, Key), Entry>

  ghost predicate SoundFor(dom: Document, run: Run, dirruns: nat, view: View, w: Matcher)
    requires Valid(dom) && w.Walk?
  {
    forall k: (nat, Key) | k in view && view[k].run == dirruns && view[k].done == w.done ::
      k.0 < |dom| && view[k].result == Visit(dom, run, w, k.0)
  }

  /** Every slot written in this query by a combinator inside `m` holds that combinator's true answer. */
  ghost predicate Sound(dom: Document, run: Run, dirruns: nat, view: View, m: Matcher)
    requires Valid(dom)
  {
    match m
    case Filter(_) => true
    case InContextSet => true
    case All(ms) => forall i | 0 <= i < |ms| :: Sound(dom, run, dirruns, view, ms[i])
    case Walk(inner, _, _, _) => SoundFor(dom, run, dirruns, view, m) && Sound(dom, run, dirruns, view, inner)
    case Anchor(_, one, many) => Sound(dom, run, dirruns, view, one) && Sound(dom, run, dirruns, view, many)
  }

  /** Overwriting slots under other names does no harm to `m`. */
  lemma {:induction false} SoundFrame(dom: Document, run: Run, dirruns: nat, v: View, v': View, m: Matcher, names: set<nat>)
    requires Valid(dom) && Sound(dom, run, dirruns, v, m) && Dones(m) !! names
    requires forall k | k in v' :: (k in v && v'[k] == v[k]) || v'[k].done in names
    ensures Sound(dom, run, dirruns, v', m)
  {
    match m
    case Filter(_) =>
    case InContextSet =>
    case All(ms) =>
      forall i | 0 <= i < |ms|
        ensures Sound(dom, run, dirruns, v', ms[i])
      {
        assert Dones(ms[i]) <= Dones(m);
        SoundFrame(dom, run, dirruns, v, v', ms[i], names);
      }
    case Walk(inner, _, _, done) =>
      assert done in Dones(m);
      SoundFrame(dom, run, dirruns, v, v', inner, names);
    case Anchor(_, one, many) =>
      SoundFrame(dom, run, dirruns, v, v', one, names);
      SoundFrame(dom, run, dirruns, v, v', many, names);
  }

  lemma DonesOfWalk(w: Matcher)
    requires w.Walk?
    ensures Dones(w) == {w.done} + Dones(w.inner)
    ensures Unique(w) ==> w.done !in Dones(w.inner)
  {
  }

  /** A query that has not written a slot yet trusts none. */
  lemma {:induction false} SoundAtStart(dom: Document, run: Run, dirruns: nat, view: View, m: Matcher)
    requires Valid(dom) && forall k | k in view :: view[k].run != dirruns
    ensures Sound(dom, run, dirruns, view, m)
  {
    match m
    case Filter(_) =>
    case InContextSet =>
    case All(ms) =>
      forall i | 0 <= i < |ms|
        ensures Sound(dom, run, dirruns, view, ms[i])
      {
        SoundAtStart(dom, run, dirruns, view, ms[i]);
      }
    case Walk(inner, _, _, _) =>
      SoundAtStart(dom, run, dirruns, view, inner);
    case Anchor(_, one, many) =>
      SoundAtStart(dom, run, dirruns, view, one);
      SoundAtStart(dom, run, dirruns, view, many);
  }

  // ---------- What a compiled matcher means ----------

  /** The tokens of one group are never empty. */
  type Selector = tokens: seq<Token> | tokens != [] witness [Simple({})]

  predicate InDom(dom: Document, elems: seq<nat>) {
    forall i | 0 <= i < |elems| :: elems[i] < |dom|
  }

  function DirOf(r: Relative): Dir {
    match r
    case Child => ParentNode
    case Descendant => ParentNode
    case Adjacent => PreviousSibling
    case Sibling => PreviousSibling
  }

  predicate IsNearest(r: Relative) {
    r.Child? || r.Adjacent?
  }

  /** `Expr.relative` */
  function CombinatorOf(r: Relative): Combinator {
    Combinator(DirOf(r), IsNearest(r), None)
  }

  /** `elementMatcher` */
  function ElementMatcher(ms: seq<Matcher>): Matcher
    requires ms != []
  {
    if |ms| > 1 then All(ms) else ms[0]
  }

  function Leading(tokens: Selector): Option<Relative>
  {
    if tokens[0].Rel? then Some(tokens[0].relative) else None
  }

  function Body(tokens: Selector): seq<Token>
  {
    if tokens[0].Rel? then tokens[1..] else tokens
  }

  lemma BodyFrom(tokens: Selector, start: nat)
    requires start == if Leading(tokens).Some? then 1 else 0
    ensures tokens[start..|tokens|] == Body(tokens)
  {
    assert tokens[0..|tokens|] == tokens;
  }

  /** What the tokens behind a leading combinator select. */
  ghost predicate Selects(dom: Document, run: Run, leading: Option<Relative>, tokens: seq<Token>, n: nat)
    requires Valid(dom) && n < |dom|
    decreases |tokens|
  {
    if tokens == [] then
      Anchored(dom, run, leading, n)
    else
      var (front, last) := (tokens[..|tokens| - 1], tokens[|tokens| - 1]);
      match last
      case Simple(accepts) => n in accepts && Selects(dom, run, leading, front, n)
      case Rel(r) => exists a: nat :: Stands(dom, r, n, a) && Selects(dom, run, leading, front, a)
  }

  /** The matcher accepts exactly what the selector picks. */
  ghost predicate Means(m: Matcher, tokens: Selector) {
    forall dom: Document, run: Run, n: nat | Valid(dom) && n < |dom| ::
      Matches(dom, run, m, n) == Picks(dom, run, tokens, n)
  }

  /** A combinator at the head of a selector leads, all others stand between compounds. */
  lemma {:induction false} LeadingPicks(dom: Document, run: Run, leading: Relative, tokens: seq<Token>, n: nat)
    requires Valid(dom) && n < |dom|
    ensures Picks(dom, run, [Rel(leading)] + tokens, n) == Selects(dom, run, Some(leading), tokens, n)
    decreases |tokens|
  {
    hide Stands, Anchored;
    var all := [Rel(leading)] + tokens;
    if tokens != [] {
      var front := tokens[..|tokens| - 1];
      assert all[..|all| - 1] == [Rel(leading)] + front;
      forall a: nat | a < |dom|
        ensures Picks(dom, run, [Rel(leading)] + front, a) == Selects(dom, run, Some(leading), front, a)
      {
        LeadingPicks(dom, run, leading, front, a);
      }
      StandsWithin(dom, n);
    } else {
      assert all[..0] == [];
    }
  }

  lemma StandsWithin(dom: Document, n: nat)
    requires Valid(dom) && n < |dom|
    ensures forall r, a: nat | Stands(dom, r, n, a) :: a < |dom|
  {
  }

  lemma {:induction false} PlainPicks(dom: Document, run: Run, tokens: seq<Token>, n: nat)
    requires Valid(dom) && n < |dom| && (tokens != [] ==> tokens[0].Simple?)
    ensures Picks(dom, run, tokens, n) == Selects(dom, run, None, tokens, n)
    decreases |tokens|
  {
    hide Stands, Anchored;
    if tokens != [] {
      var front := tokens[..|tokens| - 1];
      forall a: nat | a < |dom|
        ensures Picks(dom, run, front, a) == Selects(dom, run, None, front, a)
      {
        PlainPicks(dom, run, front, a);
      }
      StandsWithin(dom, n);
    }
  }

  /** Taking the leading combinator off a selector loses nothing. */
  lemma PicksSelects(dom: Document, run: Run, tokens: Selector, n: nat)
    requires Valid(dom) && n < |dom|
    ensures Picks(dom, run, tokens, n) == Selects(dom, run, Leading(tokens), Body(tokens), n)
  {
    hide Picks, Selects;
    if tokens[0].Rel? {
      LeadingPicks(dom, run, tokens[0].relative, tokens[1..], n);
      assert tokens == [Rel(tokens[0].relative)] + tokens[1..];
    } else {
      PlainPicks(dom, run, tokens, n);
    }
  }

  lemma AllMeanMeans(m: Matcher, tokens: Selector)
    requires AllMean([m], Leading(tokens), Body(tokens))
    ensures Means(m, tokens)
  {
    hide Matches, Selects, Picks;
    forall dom: Document, run: Run, n: nat | Valid(dom) && n < |dom|
      ensures Matches(dom, run, m, n) == Picks(dom, run, tokens, n)
    {
      OneMatch(dom, run, m, n);
      PicksSelects(dom, run, tokens, n);
    }
  }

  /** Together the matchers accept exactly what the tokens select. */
  ghost predicate AllMean(ms: seq<Matcher>, leading: Option<Relative>, tokens: seq<Token>) {
    forall dom: Document, run: Run, n: nat | Valid(dom) && n < |dom| ::
      AllMatch(dom, run, ms, n) == Selects(dom, run, leading, tokens, n)
  }

  ghost predicate AllMatch(dom: Document, run: Run, ms: seq<Matcher>, n: nat)
    requires Valid(dom) && n < |dom|
  {
    forall i | 0 <= i < |ms| :: Matches(dom, run, ms[i], n)
  }

  /** All names inside `m` were given out between `from` and `to`. */
  ghost predicate Named(m: Matcher, from: nat, to: nat) {
    forall d | d in Dones(m) :: from <= d < to
  }

  /** The matchers' names are unique, and no two matchers share one. */
  ghost predicate Apart(ms: seq<Matcher>, from: nat, to: nat) {
    && from <= to
    && (forall i | 0 <= i < |ms| :: Unique(ms[i]) && Named(ms[i], from, to))
    && (forall i, j | 0 <= i < j < |ms| :: Dones(ms[i]) !! Dones(ms[j]))
  }

  ghost predicate SomeGroup(dom: Document, run: Run, groups: seq<Selector>, n: nat)
    requires Valid(dom) && n < |dom|
  {
    exists i | 0 <= i < |groups| :: Picks(dom, run, groups[i], n)
  }

  /** The candidates that some group selects, in order. */
  ghost function Selected(dom: Document, run: Run, groups: seq<Selector>, elems: seq<nat>): seq<nat>
    requires Valid(dom) && InDom(dom, elems)
  {
    if elems == [] then []
    else (if SomeGroup(dom, run, groups, elems[0]) then [elems[0]] else []) + Selected(dom, run, groups, elems[1..])
  }

  lemma {:induction false} SelectedAppend(dom: Document, run: Run, groups: seq<Selector>, elems: seq<nat>, e: nat)
    requires Valid(dom) && InDom(dom, elems) && e < |dom|
    ensures Selected(dom, run, groups, elems + [e])
         == Selected(dom, run, groups, elems) + (if SomeGroup(dom, run, groups, e) then [e] else [])
  {
    hide SomeGroup;
    if elems == [] {
      assert elems + [e] == [e];
    } else {
      assert (elems + [e])[1..] == elems[1..] + [e];
      SelectedAppend(dom, run, groups, elems[1..], e);
    }
  }

  /** Each candidate stays, in its place among the others, exactly if some group picks it. */
  lemma {:induction false} SelectedInPlace(dom: Document, run: Run, groups: seq<Selector>, before: seq<nat>, e: nat, after: seq<nat>)
    requires Valid(dom) && InDom(dom, before) && e < |dom| && InDom(dom, after)
    ensures InDom(dom, before + [e] + after)
    ensures Selected(dom, run, groups, before + [e] + after)
         == Selected(dom, run, groups, before)
            + (if exists i :: 0 <= i < |groups| && Picks(dom, run, groups[i], e) then [e] else [])
            + Selected(dom, run, groups, after)
  {
    hide Picks;
    var all := before + [e] + after;
    if before == [] {
      assert all[0] == e && all[1..] == after;
    } else {
      assert all[0] == before[0] && all[1..] == before[1..] + [e] + after;
      SelectedInPlace(dom, run, groups, before[1..], e, after);
    }
  }

  // ---------- What the combinators look for ----------

  /** `a` lies one or more steps from `n` in direction `dir`. */
  ghost predicate Reaches(dom: Document, dir: Dir, n: nat, a: nat)
    requires Valid(dom) && n < |dom|
    decreases n
  {
    var p := Step(dom, dir, n);
    p.Some? && (p.value == a || Reaches(dom, dir, p.value, a))
  }

  /** What a walk looks for: only elements, or any node if `anyNode`; the nearest candidate in
    * either direction is the one latest in document order. */
  ghost predicate Related(dom: Document, dir: Dir, nearest: bool, anyNode: bool, n: nat, a: nat)
    requires Valid(dom) && n < |dom|
  {
    && a < |dom|
    && Reaches(dom, dir, n, a) && (anyNode || dom[a].isElement)
    && (nearest ==> forall b: nat | b < |dom| && Reaches(dom, dir, n, b) && (anyNode || dom[b].isElement) :: b <= a)
  }

  lemma {:induction false} ReachesBack(dom: Document, dir: Dir, n: nat, a: nat)
    requires Valid(dom) && n < |dom| && Reaches(dom, dir, n, a)
    ensures a < n
  {
    var p := Step(dom, dir, n).value;
    if p != a {
      ReachesBack(dom, dir, p, a);
    }
  }

  /** Of two nodes that are reached, the one later in document order comes first. */
  lemma {:induction false} ReachesThrough(dom: Document, dir: Dir, n: nat, a: nat, b: nat)
    requires Valid(dom) && n < |dom| && Reaches(dom, dir, n, a) && Reaches(dom, dir, n, b) && a < b
    ensures b < n && Reaches(dom, dir, b, a)
  {
    var p := Step(dom, dir, n).value;
    if p == a {
      ReachesBack(dom, dir, p, b);
    } else if p != b {
      ReachesThrough(dom, dir, p, a, b);
    }
  }

  lemma {:induction false} ReachesAncestor(dom: Document, n: nat, a: nat)
    requires Valid(dom) && n < |dom|
    ensures Reaches(dom, ParentNode, n, a) == Ancestor(dom, n, a)
    decreases n
  {
    if dom[n].parent.Some? {
      ReachesAncestor(dom, dom[n].parent.value, a);
    }
  }

  lemma {:induction false} ReachesEarlier(dom: Document, n: nat, a: nat)
    requires Valid(dom) && n < |dom|
    ensures Reaches(dom, PreviousSibling, n, a) == Earlier(dom, n, a)
    decreases n
  {
    if dom[n].previous.Some? {
      ReachesEarlier(dom, dom[n].previous.value, a);
    }
  }

  /** The nearest candidate is the one with no other in between. */
  lemma NearestIsClear(dom: Document, dir: Dir, n: nat, a: nat)
    requires Valid(dom) && n < |dom|
    ensures Related(dom, dir, true, false, n, a)
       <==> && a < |dom| && dom[a].isElement && Reaches(dom, dir, n, a)
            && forall b: nat | b < |dom| && dom[b].isElement && Reaches(dom, dir, n, b) :: !Reaches(dom, dir, b, a)
  {
    forall b: nat | b < |dom| && Reaches(dom, dir, n, b) && Reaches(dom, dir, n, a)
      ensures b > a <==> Reaches(dom, dir, b, a)
    {
      if b > a {
        ReachesThrough(dom, dir, n, a, b);
      } else if Reaches(dom, dir, b, a) {
        ReachesBack(dom, dir, b, a);
      }
    }
    hide Reaches;
  }

  /** Each of the four combinators looks for the elements in its relation. */
  lemma CombinatorMeans(dom: Document, r: Relative, n: nat, a: nat)
    requires Valid(dom) && n < |dom|
    ensures var comb := CombinatorOf(r); Related(dom, comb.dir, comb.first, false, n, a) <==> Stands(dom, r, n, a)
  {
    NearestIsClear(dom, CombinatorOf(r).dir, n, a);
    forall m: nat, b: nat | m < |dom|
      ensures Reaches(dom, ParentNode, m, b) == Ancestor(dom, m, b)
      ensures Reaches(dom, PreviousSibling, m, b) == Earlier(dom, m, b)
    {
      ReachesAncestor(dom, m, b);
      ReachesEarlier(dom, m, b);
    }
    hide Reaches, Ancestor, Earlier;
  }

  /** And in front of a selector, the nodes that the context may be at. */
  lemma LeadingMeans(dom: Document, r: Relative, n: nat, a: nat)
    requires Valid(dom) && n < |dom|
    ensures var comb := CombinatorOf(r);
            Related(dom, comb.dir, comb.first, comb.dir.ParentNode?, n, a) <==> StandsInContext(dom, r, n, a)
  {
    CombinatorMeans(dom, r, n, a);
    ReachesAncestor(dom, n, a);
    if r.Descendant? && Ancestor(dom, n, a) {
      ReachesBack(dom, ParentNode, n, a);
    }
    if r.Child? && dom[n].parent.Some? {
      var p := dom[n].parent.value;
      assert Reaches(dom, ParentNode, n, p);
      forall b: nat | Reaches(dom, ParentNode, n, b) ensures b <= p {
        if b != p {
          ReachesBack(dom, ParentNode, p, b);
        }
      }
    }
  }

  /** Whether a walk without `next` finds what it looks for. */
  ghost predicate Finds(dom: Document, run: Run, w: Matcher, n: nat)
    requires Valid(dom) && n < |dom| && w.Walk?
  {
    exists a: nat | a < |dom| :: Candidate(dom, w, n, a) && Matches(dom, run, w.inner, a)
  }

  ghost predicate Candidate(dom: Document, w: Matcher, n: nat, a: nat)
    requires Valid(dom) && n < |dom| && w.Walk?
  {
    Related(dom, w.comb.dir, w.comb.first, w.base && w.comb.dir.ParentNode?, n, a)
  }

  /** A walk finds a related node that the inner matcher accepts, if there is one. */
  lemma {:induction false} SearchFinds(dom: Document, run: Run, w: Matcher, n: nat)
    requires Valid(dom) && n < |dom| && w.Walk? && w.comb.next.None?
    ensures Search(dom, run, w, n) <==> Finds(dom, run, w, n)
    decreases n
  {
    hide Matches, Related, Tests;
    var step := Step(dom, w.comb.dir, n);
    if step.None? {
      NoCandidate(dom, w, n);
    } else {
      var p := step.value;
      SearchFinds(dom, run, w, p);
      CandidateStep(dom, w, n, p, p);
      if Finds(dom, run, w, p) {
        var a: nat :| a < |dom| && Candidate(dom, w, p, a) && Matches(dom, run, w.inner, a);
        CandidateStep(dom, w, n, p, a);
      }
      if Finds(dom, run, w, n) {
        var a: nat :| a < |dom| && Candidate(dom, w, n, a) && Matches(dom, run, w.inner, a);
        CandidateStep(dom, w, n, p, a);
      }
    }
  }

  lemma NoCandidate(dom: Document, w: Matcher, n: nat)
    requires Valid(dom) && n < |dom| && w.Walk? && Step(dom, w.comb.dir, n).None?
    ensures forall a: nat :: !Candidate(dom, w, n, a)
  {
  }

  /** The candidates from `n` are its neighbour, if that may be tested, and, unless only the
    * nearest counts, the candidates from there. */
  lemma CandidateStep(dom: Document, w: Matcher, n: nat, p: nat, a: nat)
    requires Valid(dom) && n < |dom| && w.Walk? && w.comb.next.None? && Step(dom, w.comb.dir, n) == Some(p)
    ensures Candidate(dom, w, n, a)
       <==> ((a == p && Tests(dom, w, p)) || (!(w.comb.first && Tests(dom, w, p)) && Candidate(dom, w, p, a)))
  {
    var dir := w.comb.dir;
    forall b: nat | Reaches(dom, dir, p, b)
      ensures b < p
    {
      ReachesBack(dom, dir, p, b);
    }
    assert forall b: nat :: Reaches(dom, dir, n, b) <==> b == p || Reaches(dom, dir, p, b);
    assert Tests(dom, w, p) <==> dom[p].isElement || (w.base && dir.ParentNode?);
  }

  lemma WalkMeans(w: Matcher, r: Relative, leading: Option<Relative>, tokens: seq<Token>)
    requires w.Walk? && w.comb == CombinatorOf(r) && !w.base && AllMean([w.inner], leading, tokens)
    ensures AllMean([w], leading, tokens + [Rel(r)])
  {
    hide Search, Visit, Related, Stands;
    var longer := tokens + [Rel(r)];
    assert longer[..|longer| - 1] == tokens && longer[|longer| - 1] == Rel(r);
    forall dom: Document, run: Run, n: nat | Valid(dom) && n < |dom|
      ensures AllMatch(dom, run, [w], n) == Selects(dom, run, leading, longer, n)
    {
      SearchFinds(dom, run, w, n);
      OneMatch(dom, run, w, n);
      assert Matches(dom, run, w, n) == Search(dom, run, w, n);
      StandsWithin(dom, n);
      forall a: nat
        ensures Candidate(dom, w, n, a) <==> Stands(dom, r, n, a)
      {
        CombinatorMeans(dom, r, n, a);
      }
      forall a: nat | a < |dom|
        ensures Matches(dom, run, w.inner, a) == Selects(dom, run, leading, tokens, a)
      {
        OneMatch(dom, run, w.inner, a);
      }
    }
  }

  lemma OneMatch(dom: Document, run: Run, m: Matcher, n: nat)
    requires Valid(dom) && n < |dom|
    ensures AllMatch(dom, run, [m], n) == Matches(dom, run, m, n)
  {
    hide Matches;
    assert [m][0] == m;
  }

  lemma ContextWalkNamed(comb: Combinator, d: nat)
    ensures var w := Walk(InContextSet, comb, true, d); Dones(w) == {d} && Unique(w)
  {
    assert Dones(InContextSet) == {} && Unique(InContextSet);
  }

  lemma AnchorMeans(m: Matcher, leading: Option<Relative>, d: nat)
    requires var comb := CombinatorOf(if leading.Some? then leading.value else Descendant);
             m == Anchor(leading.Some?, Walk(InContextSet, comb, true, d), Walk(InContextSet, comb, true, d + 1))
    ensures AllMean([m], leading, []) && Apart([m], d, d + 2)
  {
    ContextWalkNamed(m.one.comb, d);
    ContextWalkNamed(m.many.comb, d + 1);
    assert Dones(m) == {d, d + 1};
    hide Search, Visit, Related, StandsInContext;
    forall dom: Document, run: Run, n: nat | Valid(dom) && n < |dom|
      ensures AllMatch(dom, run, [m], n) == Selects(dom, run, leading, [], n)
    {
      OneMatch(dom, run, m, n);
      var r := if leading.Some? then leading.value else Descendant;
      ContextWalkMeans(dom, run, if run.context.Single? then m.one else m.many, r, n);
      assert forall a: nat :: StandsInContext(dom, Descendant, n, a) == Ancestor(dom, n, a) by {
        DescendantInContext(dom, n);
      }
    }
  }

  lemma DescendantInContext(dom: Document, n: nat)
    requires Valid(dom) && n < |dom|
    ensures forall a: nat :: StandsInContext(dom, Descendant, n, a) == Ancestor(dom, n, a)
  {
  }

  lemma ContextWalkMeans(dom: Document, run: Run, w: Matcher, r: Relative, n: nat)
    requires Valid(dom) && n < |dom| && w.Walk? && w.inner == InContextSet && w.comb == CombinatorOf(r) && w.base
    ensures Matches(dom, run, w, n)
       <==> exists a: nat :: StandsInContext(dom, r, n, a) && a in ContextNodes(run.context)
  {
    hide Search, Visit, Related, StandsInContext;
    SearchFinds(dom, run, w, n);
    assert Matches(dom, run, w, n) == Search(dom, run, w, n);
    forall a: nat
      ensures Candidate(dom, w, n, a) <==> StandsInContext(dom, r, n, a)
      ensures Candidate(dom, w, n, a) ==> a < |dom|
      ensures a < |dom| ==> Matches(dom, run, w.inner, a) == (a in ContextNodes(run.context))
    {
      LeadingMeans(dom, r, n, a);
      if Candidate(dom, w, n, a) {
        CandidateWithin(dom, w, n, a);
      }
    }
  }

  lemma CandidateWithin(dom: Document, w: Matcher, n: nat, a: nat)
    requires Valid(dom) && n < |dom| && w.Walk? && Candidate(dom, w, n, a)
    ensures a < |dom|
  {
  }

  lemma ElementMatcherMeans(ms: seq<Matcher>, leading: Option<Relative>, tokens: seq<Token>, from: nat, to: nat)
    requires ms != [] && AllMean(ms, leading, tokens) && Apart(ms, from, to)
    ensures var m := ElementMatcher(ms); AllMean([m], leading, tokens) && Unique(m) && Named(m, from, to)
  {
    var m := ElementMatcher(ms);
    assert Named(m, from, to) && Unique(m) by {
      if |ms| > 1 {
        forall d | d in Dones(m)
          ensures from <= d < to
        {
          var i :| 0 <= i < |ms| && d in Dones(ms[i]);
          assert Named(ms[i], from, to);
        }
      }
    }
    hide Selects;
    forall dom: Document, run: Run, n: nat | Valid(dom) && n < |dom|
      ensures AllMatch(dom, run, [m], n) == AllMatch(dom, run, ms, n)
    {
      OneMatch(dom, run, m, n);
    }
  }

  lemma FilterMeans(ms: seq<Matcher>, leading: Option<Relative>, tokens: seq<Token>, accepts: set<nat>, from: nat, to: nat)
    requires AllMean(ms, leading, tokens) && Apart(ms, from, to)
    ensures AllMean(ms + [Filter(accepts)], leading, tokens + [Simple(accepts)]) && Apart(ms + [Filter(accepts)], from, to)
  {
    var longer := tokens + [Simple(accepts)];
    assert longer[..|longer| - 1] == tokens && longer[|longer| - 1] == Simple(accepts);
    forall dom: Document, run: Run, n: nat | Valid(dom) && n < |dom|
      ensures AllMatch(dom, run, ms + [Filter(accepts)], n) == Selects(dom, run, leading, longer, n)
    {
      var all := ms + [Filter(accepts)];
      assert Matches(dom, run, all[|ms|], n) == (n in accepts);
      assert forall i | 0 <= i < |ms| :: all[i] == ms[i];
    }
  }

  lemma WalkNamed(w: Matcher, from: nat)
    requires w.Walk? && Unique(w.inner) && Named(w.inner, from, w.done) && from <= w.done
    ensures Apart([w], from, w.done + 1)
  {
  }

  lemma ApartAppend(ms: seq<Matcher>, m: Matcher, from: nat, mid: nat, to: nat)
    requires Apart(ms, from, mid) && Unique(m) && Named(m, mid, to) && mid <= to
    ensures Apart(ms + [m], from, to)
  {
  }

  // ---------- The engine ----------

  /** The array a walk stores in the slots of the nodes it visits; all of them share it, so
    * one assignment to `result` answers for every one of them. An unset result reads as false. */
  class Cell {
    const run: nat
    const done: nat
    var result: bool

    constructor (run: nat, done: nat)
      ensures this.run == run && this.done == done && !result
    {
      this.run, this.done, result := run, done, false;
    }
  }

  class Engine {
    var dirruns: nat
    var done: nat
    var slots: map<(nat, Key), Cell>

    constructor ()
      ensures Stale() && slots == map[] && done == 0
    {
      dirruns, done, slots := 0, 0, map[];
    }

    /** No slot comes from a query that has not begun. */
    ghost predicate Stale()
      reads this
    {
      forall k | k in slots :: slots[k].run <= dirruns
    }

    ghost function CurrentView(): View
      reads this, slots.Values
    {
      map k | k in slots :: Entry(slots[k].run, slots[k].done, slots[k].result)
    }

    /** Every slot is as it was, or holds a new cell of this query under one of the names. */
    twostate predicate OnlyNewSlots(names: set<nat>)
      reads this
    {
      forall k | k in slots :: (k in old(slots) && slots[k] == old(slots)[k])
                            || (fresh(slots[k]) && slots[k].run == dirruns && slots[k].done in names)
    }

    /** Runs a compiled matcher on one node. The answer is the cache-free one, every slot a
      * combinator of `m` left behind is right, and slots of other combinators are only ever
      * overwritten, never changed. */
    method Match(dom: Document, run: Run, m: Matcher, n: nat) returns (r: bool)
      requires Valid(dom) && n < |dom| && Unique(m)
      requires Sound(dom, run, dirruns, CurrentView(), m)
      modifies this`slots
      ensures r == Matches(dom, run, m, n)
      ensures Sound(dom, run, dirruns, CurrentView(), m)
      ensures OnlyNewSlots(Dones(m))
      decreases m, 0
    {
      match m
      case Filter(accepts) =>
        r := n in accepts;
      case InContextSet =>
        r := InContext(run.context, n);
      case All(ms) =>
        r := MatchAll(dom, run, m, n);
      case Walk(_, _, _, _) =>
        if m.comb.first {
          r := WalkFirst(dom, run, m, n);
        } else if run.xml {
          r := WalkPlain(dom, run, m, n);
        } else {
          r := WalkCached(dom, run, m, n);
        }
      case Anchor(leading, one, many) =>
        if !leading && (run.xml || !run.outermost) {
          r := true;
        } else {
          ghost var before := CurrentView();
          if run.context.Single? {
            r := Match(dom, run, one, n);
            SoundFrame(dom, run, dirruns, before, CurrentView(), many, Dones(one));
          } else {
            r := Match(dom, run, many, n);
            SoundFrame(dom, run, dirruns, before, CurrentView(), one, Dones(many));
          }
        }
    }

    /** `elementMatcher`: the matchers of a compound, last to first, until one refuses. */
    method MatchAll(dom: Document, run: Run, m: Matcher, n: nat) returns (r: bool)
      requires Valid(dom) && n < |dom| && m.All? && Unique(m)
      requires Sound(dom, run, dirruns, CurrentView(), m)
      modifies this`slots
      ensures r == Matches(dom, run, m, n)
      ensures Sound(dom, run, dirruns, CurrentView(), m)
      ensures OnlyNewSlots(Dones(m))
      decreases m.ms, 1
    {
      r := true;
      var i := |m.ms|;
      while i > 0
        invariant 0 <= i <= |m.ms| && r
        invariant forall j | i <= j < |m.ms| :: Matches(dom, run, m.ms[j], n)
        invariant Sound(dom, run, dirruns, CurrentView(), m)
        invariant OnlyNewSlots(Dones(m))
      {
        i := i - 1;
        ghost var before := CurrentView();
        r := Match(dom, run, m.ms[i], n);
        assert Dones(m.ms[i]) <= Dones(m);
        forall j | 0 <= j < |m.ms|
          ensures Sound(dom, run, dirruns, CurrentView(), m.ms[j])
        {
          if j != i {
            assert Dones(m.ms[j]) !! Dones(m.ms[i]);
            SoundFrame(dom, run, dirruns, before, CurrentView(), m.ms[j], Dones(m.ms[i]));
          }
        }
        if !r {
          return;
        }
      }
    }

    /** `first`: only the closest node in the direction is asked. */
    method WalkFirst(dom: Document, run: Run, w: Matcher, n: nat) returns (r: bool)
      requires Valid(dom) && n < |dom| && w.Walk? && w.comb.first && Unique(w)
      requires Sound(dom, run, dirruns, CurrentView(), w)
      modifies this`slots
      ensures r == Search(dom, run, w, n)
      ensures Sound(dom, run, dirruns, CurrentView(), w)
      ensures OnlyNewSlots(Dones(w))
      decreases w.inner, 1
    {
      var elem: Option<nat> := Step(dom, w.comb.dir, n);
      while elem.Some?
        invariant elem.Some? ==> elem.value < |dom|
        invariant Search(dom, run, w, n) == (elem.Some? && Visit(dom, run, w, elem.value))
        invariant slots == old(slots)
        decreases if elem.Some? then elem.value + 1 else 0
      {
        if Tests(dom, w, elem.value) {
          ghost var before := CurrentView();
          r := Match(dom, run, w.inner, elem.value);
          assert SoundFor(dom, run, dirruns, CurrentView(), w);
          return;
        }
        elem := Step(dom, w.comb.dir, elem.value);
      }
      r := false;
    }

    /** The branch for XML nodes, which cannot carry a cache. */
    method WalkPlain(dom: Document, run: Run, w: Matcher, n: nat) returns (r: bool)
      requires Valid(dom) && n < |dom| && w.Walk? && !w.comb.first && run.xml && Unique(w)
      requires Sound(dom, run, dirruns, CurrentView(), w)
      modifies this`slots
      ensures r == Search(dom, run, w, n)
      ensures Sound(dom, run, dirruns, CurrentView(), w)
      ensures OnlyNewSlots(Dones(w))
      decreases w.inner, 1
    {
      var elem: Option<nat> := Step(dom, w.comb.dir, n);
      while elem.Some?
        invariant elem.Some? ==> elem.value < |dom|
        invariant Search(dom, run, w, n) == (elem.Some? && Visit(dom, run, w, elem.value))
        invariant Sound(dom, run, dirruns, CurrentView(), w)
        invariant OnlyNewSlots(Dones(w))
        decreases if elem.Some? then elem.value + 1 else 0
      {
        if Tests(dom, w, elem.value) {
          r := Match(dom, run, w.inner, elem.value);
          if r {
            return;
          }
        }
        elem := Step(dom, w.comb.dir, elem.value);
      }
      r := false;
    }

    /** One turn of the cached walk: claim the node's slot, ask the inner matcher, and share the answer. */
    method Ask(dom: Document, run: Run, w: Matcher, p: nat, newCache: Cell) returns (r: bool)
      requires Valid(dom) && p < |dom| && w.Walk? && Unique(w)
      requires Sound(dom, run, dirruns, CurrentView(), w.inner)
      requires newCache.run == dirruns && newCache.done == w.done
      modifies this`slots, newCache
      ensures r == newCache.result == Matches(dom, run, w.inner, p)
      ensures Sound(dom, run, dirruns, CurrentView(), w.inner)
      ensures forall k | k in slots ::
        || (k in old(slots) && slots[k] == old(slots)[k])
        || (k == (p, KeyOf(w.comb)) && slots[k] == newCache)
        || (fresh(slots[k]) && slots[k].run == dirruns && slots[k].done in Dones(w.inner))
      decreases w.inner, 1
    {
      ghost var before := CurrentView();
      slots := slots[(p, KeyOf(w.comb)) := newCache];
      SoundFrame(dom, run, dirruns, before, CurrentView(), w.inner, {w.done});
      r := Match(dom, run, w.inner, p);
      before := CurrentView();
      newCache.result := r;
      SoundFrame(dom, run, dirruns, before, CurrentView(), w.inner, {w.done});
    }

    /** Every slot in the direction of `w` that this query wrote, except those holding `open`, is right. */
    ghost predicate RightExcept(dom: Document, run: Run, w: Matcher, open: Cell?)
      requires Valid(dom) && w.Walk?
      reads this, slots.Values
    {
      forall k: (nat, Key) | k in slots && slots[k] != open && slots[k].run == dirruns && slots[k].done == w.done ::
        k.0 < |dom| && slots[k].result == Visit(dom, run, w, k.0)
    }

    /** Soundness of a walk, said of the slots themselves. */
    lemma SoundSlots(dom: Document, run: Run, w: Matcher)
      requires Valid(dom) && w.Walk?
      ensures Sound(dom, run, dirruns, CurrentView(), w)
         <==> RightExcept(dom, run, w, null) && Sound(dom, run, dirruns, CurrentView(), w.inner)
    {
      hide Visit;
      var view := CurrentView();
      assert Sound(dom, run, dirruns, view, w) <==> SoundFor(dom, run, dirruns, view, w) && Sound(dom, run, dirruns, view, w.inner);
      assert forall k | k in slots :: k in view && view[k] == Entry(slots[k].run, slots[k].done, slots[k].result);
    }

    /** The shared cell has its final value: every slot that holds it has become right. */
    method Share(dom: Document, run: Run, w: Matcher, cell: Cell, r: bool)
      requires Valid(dom) && w.Walk? && Unique(w) && cell.done == w.done
      requires RightExcept(dom, run, w, cell) && Sound(dom, run, dirruns, CurrentView(), w.inner)
      requires forall k: (nat, Key) | k in slots && slots[k] == cell :: k.0 < |dom| && Visit(dom, run, w, k.0) == r
      modifies cell
      ensures Sound(dom, run, dirruns, CurrentView(), w)
    {
      hide Visit;
      ghost var before := CurrentView();
      cell.result := r;
      SoundFrame(dom, run, dirruns, before, CurrentView(), w.inner, {w.done});
      SoundSlots(dom, run, w);
    }

    /** The branch with the cache: every node tested on the way shares one new cell, which
      * ends up holding the answer of the whole walk, unless a node's slot already knows it. */
    method WalkCached(dom: Document, run: Run, w: Matcher, n: nat) returns (r: bool)
      requires Valid(dom) && n < |dom| && w.Walk? && !w.comb.first && !run.xml && Unique(w)
      requires Sound(dom, run, dirruns, CurrentView(), w)
      modifies this`slots
      ensures r == Search(dom, run, w, n)
      ensures Sound(dom, run, dirruns, CurrentView(), w)
      ensures OnlyNewSlots(Dones(w))
      decreases w.inner, 2
    {
      hide Sound, Unique, Dones, Matches, SoundFor, CurrentView;
      SoundSlots(dom, run, w);
      DonesOfWalk(w);
      var newCache := new Cell(dirruns, w.done);
      var key := KeyOf(w.comb);
      var elem: Option<nat> := Step(dom, w.comb.dir, n);
      while elem.Some?
        invariant elem.Some? ==> elem.value < |dom|
        invariant Search(dom, run, w, n) == (elem.Some? && Visit(dom, run, w, elem.value))
        // nodes visited so far all wait for the answer at `elem`
        invariant forall k: (nat, Key) | k in slots && slots[k] == newCache ::
          k.0 < |dom| && Visit(dom, run, w, k.0) == (elem.Some? && Visit(dom, run, w, elem.value)) && (elem.Some? ==> k.0 > elem.value)
        invariant RightExcept(dom, run, w, newCache)
        invariant Sound(dom, run, dirruns, CurrentView(), w.inner)
        invariant OnlyNewSlots(Dones(w))
        decreases if elem.Some? then elem.value + 1 else 0
      {
        var p := elem.value;
        if Tests(dom, w, p) {
          if w.comb.next == Some(dom[p].name) {
            p := Skipped(dom, w, p);
          } else if (p, key) in slots && slots[(p, key)].run == dirruns && slots[(p, key)].done == w.done {
            r := slots[(p, key)].result;
            Share(dom, run, w, newCache, r);
            return;
          } else {
            r := Ask(dom, run, w, p, newCache);
            if r {
              Share(dom, run, w, newCache, true);
              return;
            }
          }
        }
        elem := Step(dom, w.comb.dir, p);
      }
      Share(dom, run, w, newCache, false);
      r := false;
    }

    /** `addCombinator`: every combinator gets a name of its own. */
    method AddCombinator(inner: Matcher, comb: Combinator, base: bool) returns (m: Matcher)
      modifies this`done
      ensures m == Walk(inner, comb, base, old(done)) && done == old(done) + 1
    {
      m := Walk(inner, comb, base, done);
      done := done + 1;
    }

    /** `matcherFromTokens` for tokens without positional filters: the compiled matcher accepts
      * exactly the nodes the selector selects, and its combinators have names of their own. */
    method MatcherFromTokens(tokens: Selector) returns (m: Matcher)
      modifies this`done
      ensures Means(m, tokens) && Unique(m) && Named(m, old(done), done) && old(done) <= done
    {
      hide Matches, Selects, Unique, Dones, AllMean, Apart, Named, Means;
      var leading := Leading(tokens);
      var implicit := if leading.Some? then leading.value else Descendant;
      var i: nat := if leading.Some? then 1 else 0;
      var matchContext := AddCombinator(InContextSet, CombinatorOf(implicit), true);
      var matchAny := AddCombinator(InContextSet, CombinatorOf(implicit), true);
      var matchers := [Anchor(leading.Some?, matchContext, matchAny)];
      AnchorMeans(matchers[0], leading, done - 2);
      assert tokens[i..i] == [];
      ghost var start := i;
      while i < |tokens|
        decreases |tokens| - i
        invariant start <= i <= |tokens| && |matchers| > 0 && old(done) <= done
        invariant AllMean(matchers, leading, tokens[start..i])
        invariant Apart(matchers, old(done), done)
      {
        match tokens[i] {
        case Rel(r) =>
          var inner := ElementMatcher(matchers);
          ElementMatcherMeans(matchers, leading, tokens[start..i], old(done), done);
          var w := AddCombinator(inner, CombinatorOf(r), false);
          WalkMeans(w, r, leading, tokens[start..i]);
          WalkNamed(w, old(done));
          assert tokens[start..i + 1] == tokens[start..i] + [Rel(r)];
          matchers := [w];
        case Simple(accepts) =>
          FilterMeans(matchers, leading, tokens[start..i], accepts, old(done), done);
          assert tokens[start..i + 1] == tokens[start..i] + [Simple(accepts)];
          matchers := matchers + [Filter(accepts)];
        }
        i := i + 1;
      }
      BodyFrom(tokens, start);
      m := ElementMatcher(matchers);
      ElementMatcherMeans(matchers, leading, Body(tokens), old(done), done);
      AllMeanMeans(m, tokens);
    }

    /** Compiles the comma-separated groups of a selector. */
    method Compile(groups: seq<Selector>) returns (matchers: seq<Matcher>)
      modifies this`done
      ensures |matchers| == |groups| && Apart(matchers, old(done), done)
      ensures forall i | 0 <= i < |groups| :: Means(matchers[i], groups[i])
    {
      hide Means, Unique, Dones;
      matchers := [];
      for i := 0 to |groups|
        invariant |matchers| == i && Apart(matchers, old(done), done)
        invariant forall j | 0 <= j < i :: Means(matchers[j], groups[j])
      {
        ghost var before := done;
        var m := MatcherFromTokens(groups[i]);
        ApartAppend(matchers, m, old(done), before, done);
        matchers := matchers + [m];
      }
    }

    /** The element loop of `superMatcher`: a query begins by taking a new run number, and
      * returns, in order, exactly the candidates that some group of the selector selects. */
    method Query(dom: Document, run: Run, elems: seq<nat>, matchers: seq<Matcher>, ghost groups: seq<Selector>)
      returns (results: seq<nat>)
      requires Valid(dom) && InDom(dom, elems) && Stale()
      requires |matchers| == |groups| && Apart(matchers, 0, done)
      requires forall i | 0 <= i < |groups| :: Means(matchers[i], groups[i])
      modifies this`slots, this`dirruns
      ensures results == Selected(dom, run, groups, elems)
      ensures Stale()
    {
      hide Sound, Means, Unique, Dones, Matches, Picks, CurrentView;
      dirruns := dirruns + 1;
      ViewIsOld();
      forall j | 0 <= j < |matchers|
        ensures Sound(dom, run, dirruns, CurrentView(), matchers[j])
      {
        SoundAtStart(dom, run, dirruns, CurrentView(), matchers[j]);
      }
      results := [];
      for i := 0 to |elems|
        invariant results == Selected(dom, run, groups, elems[..i])
        invariant Stale() && forall j | 0 <= j < |matchers| :: Sound(dom, run, dirruns, CurrentView(), matchers[j])
      {
        assert elems[..i + 1] == elems[..i] + [elems[i]];
        SelectedAppend(dom, run, groups, elems[..i], elems[i]);
        var hit := AnyMatch(dom, run, elems[i], matchers, groups);
        if hit {
          results := results + [elems[i]];
        }
      }
      assert elems[..|elems|] == elems;
    }

    lemma ViewIsOld()
      requires forall k | k in slots :: slots[k].run < dirruns
      ensures forall k | k in CurrentView() :: CurrentView()[k].run != dirruns
    {
    }

    /** Tries the groups in order until one matches. */
    method AnyMatch(dom: Document, run: Run, n: nat, matchers: seq<Matcher>, ghost groups: seq<Selector>) returns (hit: bool)
      requires Valid(dom) && n < |dom| && Stale()
      requires |matchers| == |groups| && Apart(matchers, 0, done)
      requires forall i | 0 <= i < |groups| :: Means(matchers[i], groups[i])
      requires forall j | 0 <= j < |matchers| :: Sound(dom, run, dirruns, CurrentView(), matchers[j])
      modifies this`slots
      ensures hit == SomeGroup(dom, run, groups, n)
      ensures Stale() && forall j | 0 <= j < |matchers| :: Sound(dom, run, dirruns, CurrentView(), matchers[j])
    {
      hide Sound, Unique, Dones, Matches, Picks;
      for i := 0 to |matchers|
        invariant forall j | 0 <= j < i :: !Picks(dom, run, groups[j], n)
        invariant Stale()
        invariant forall j | 0 <= j < |matchers| :: Sound(dom, run, dirruns, CurrentView(), matchers[j])
      {
        ghost var before := CurrentView();
        hit := Match(dom, run, matchers[i], n);
        assert hit == Picks(dom, run, groups[i], n);
        forall j | 0 <= j < |matchers|
          ensures Sound(dom, run, dirruns, CurrentView(), matchers[j])
        {
          if j != i {
            assert Dones(matchers[j]) !! Dones(matchers[i]);
            SoundFrame(dom, run, dirruns, before, CurrentView(), matchers[j], Dones(matchers[i]));
          }
        }
        if hit {
          return;
        }
      }
      hit := false;
    }
  }
}

/** The part of a document that selector matching looks at, and what a selector means on it. */
module Dom {
  import opened Wrappers

  datatype Dir = ParentNode | PreviousSibling

  /** One node. Names are lower case. */
  datatype Node = Node(isElement: bool, name: string, parent: Option<nat>, previous: Option<nat>)

  /** Nodes are numbered in document order, so both links lead to a smaller number. */
  type Document = seq<Node>

  ghost predicate Valid(dom: Document) {
    forall n | 0 <= n < |dom| ::
      && (dom[n].parent.Some? ==> dom[n].parent.value < n)
      && (dom[n].previous.Some? ==> dom[n].previous.value < n)
  }

  /** `elem[dir]` */
  function Step(dom: Document, dir: Dir, n: nat): (p: Option<nat>)
    requires Valid(dom) && n < |dom|
    ensures p.Some? ==> p.value < n
  {
    match dir
    case ParentNode => dom[n].parent
    case PreviousSibling => dom[n].previous
  }

  // ---------- Relations between nodes ----------

  /** `a` is the parent of `n`, or its parent's parent, and so on. */
  ghost predicate Ancestor(dom: Document, n: nat, a: nat)
    requires Valid(dom) && n < |dom|
    decreases n
  {
    dom[n].parent.Some? && (dom[n].parent.value == a || Ancestor(dom, dom[n].parent.value, a))
  }

  /** `a` is a sibling before `n`. */
  ghost predicate Earlier(dom: Document, n: nat, a: nat)
    requires Valid(dom) && n < |dom|
    decreases n
  {
    dom[n].previous.Some? && (dom[n].previous.value == a || Earlier(dom, dom[n].previous.value, a))
  }

  // ---------- Selectors ----------

  /** Where a run searches from: one node or a list of nodes. */
  datatype Context = Single(node: nat) | Many(nodes: seq<nat>)

  function ContextNodes(context: Context): set<nat> {
    match context
    case Single(node) => {node}
    case Many(nodes) => set n | n in nodes
  }

  /** What stays fixed while one query runs: the context, whether the document is XML,
    * and whether the context is that of the outermost query. */
  datatype Run = Run(context: Context, xml: bool, outermost: bool)

  /** `a > n`, `a n`, `a + n` and `a ~ n` */
  datatype Relative = Child | Descendant | Adjacent | Sibling

  /** A compiled token: a combinator, or a simple filter given by the nodes it accepts. */
  datatype Token = Rel(relative: Relative) | Simple(accepts: set<nat>)

  /** The element `a` stands in relation `r` to `n`: it is above or before `n`, and where the
    * nearest is asked for, no other element lies between. */
  ghost predicate Stands(dom: Document, r: Relative, n: nat, a: nat)
    requires Valid(dom) && n < |dom|
  {
    && a < |dom| && dom[a].isElement
    && match r
       case Descendant => Ancestor(dom, n, a)
       case Child =>
         && Ancestor(dom, n, a)
         && forall b: nat | b < |dom| && dom[b].isElement && Ancestor(dom, n, b) :: !Ancestor(dom, b, a)
       case Sibling => Earlier(dom, n, a)
       case Adjacent =>
         && Earlier(dom, n, a)
         && forall b: nat | b < |dom| && dom[b].isElement && Earlier(dom, n, b) :: !Earlier(dom, b, a)
  }

  /** The same where `a` is to be a context node, which above `n` may be the document itself. */
  ghost predicate StandsInContext(dom: Document, r: Relative, n: nat, a: nat)
    requires Valid(dom) && n < |dom|
  {
    match r
    case Descendant => Ancestor(dom, n, a)
    case Child => dom[n].parent == Some(a)
    case Sibling => Stands(dom, r, n, a)
    case Adjacent => Stands(dom, r, n, a)
  }

  /** The leftmost compound must be related to a context node as the combinator before it
    * says. Without one it is anywhere below, and in a nested or XML query just anywhere. */
  ghost predicate Anchored(dom: Document, run: Run, leading: Option<Relative>, n: nat)
    requires Valid(dom) && n < |dom|
  {
    match leading
    case None =>
      run.xml || !run.outermost || exists a: nat :: Ancestor(dom, n, a) && a in ContextNodes(run.context)
    case Some(r) =>
      exists a: nat :: StandsInContext(dom, r, n, a) && a in ContextNodes(run.context)
  }

  /** The meaning of one group of a selector, read from right to left: each filter must accept
    * the node it is reached at, each combinator needs a node in its relation that the rest of
    * the selector picks, and the leftmost compound must be anchored. */
  ghost predicate Picks(dom: Document, run: Run, tokens: seq<Token>, n: nat)
    requires Valid(dom) && n < |dom|
    decreases |tokens|
  {
    if tokens == [] then
      Anchored(dom, run, None, n)
    else
      var (front, last) := (tokens[..|tokens| - 1], tokens[|tokens| - 1]);
      match last
      case Simple(accepts) => n in accepts && Picks(dom, run, front, n)
      case Rel(r) =>
        if front == [] then Anchored(dom, run, Some(r), n)
        else exists a: nat :: Stands(dom, r, n, a) && Picks(dom, run, front, a)
  }
}

/**
 The links between exceptions that the scrub of backend/app/database.py:467-656 rewrites, as values:
 what a scrub may not change, and what accounts for every link it leaves.
 */
module PublicLinks {

  datatype Kind = Public | OutcomeUnknown | ChildCancelled | CancelledAfter

  datatype Attribute = Cause | Context

  class Exc {
    const kind: Kind
    const worker: Exc?            // what a CancelledAfter carries
    const callerCancelled: bool   // of an unresolved outcome
    ghost const rank: nat         // construction order: a worker error exists before its carrier
    var cause: Exc?
    var context: Exc?
    var suppress: bool

    /** A new public exception with nothing attached: a bare cancellation or a fail-stop. */
    constructor ()
      ensures kind == Public && worker == null && cause == null && context == null && !suppress
    {
      kind, worker, callerCancelled, rank := Public, null, false, 0;
      cause, context, suppress := null, null, false;
    }

    function Link(a: Attribute): Exc?
      reads this
    {
      if a == Cause then cause else context
    }

    /** Assigning a cause hides the context from display; assigning a context does not. */
    method SetLink(a: Attribute, value: Exc?)
      modifies this
      ensures Link(a) == value
      ensures a == Cause ==> context == old(context) && suppress
      ensures a == Context ==> cause == old(cause) && suppress == old(suppress)
    {
      if a == Cause {
        cause, suppress := value, true;
      } else {
        context := value;
      }
    }

    /** `_relink`: point one link elsewhere without changing what is displayed. */
    method Relink(a: Attribute, value: Exc?)
      modifies this
      ensures Link(a) == value && suppress == old(suppress)
      ensures a == Cause ==> context == old(context)
      ensures a == Context ==> cause == old(cause)
    {
      if Link(a) == value {
        return;
      }
      var was := suppress;
      SetLink(a, value);
      suppress := was;
    }
  }

  /** Carriers of worker errors are well-founded: the error was there first. */
  ghost predicate Carriers(all: set<Exc>) {
    forall x | x in all && x.kind == CancelledAfter ::
      x.worker != null && x.worker in all && x.worker.rank < x.rank
  }

  ghost predicate LinksWithin(all: set<Exc>)
    reads all
  {
    forall x | x in all :: (x.cause == null || x.cause in all) && (x.context == null || x.context in all)
  }

  /** Every exception that can be reached from these by any link is among them. */
  ghost predicate Graph(all: set<Exc>)
    reads all
  {
    Carriers(all) && LinksWithin(all)
  }

  /** `_public_cause`: what may be attached as a direct cause, or null when nothing may be. */
  function PublicCause(exc: Exc, ghost all: set<Exc>): (cause: Exc?)
    requires exc in all && Carriers(all)
    ensures cause != null ==> cause in all && cause.kind == Public
    ensures exc.kind == Public ==> cause == exc
    decreases exc.rank
  {
    match exc.kind
    case Public => exc
    case CancelledAfter => PublicCause(exc.worker, all)
    case _ => null
  }

  /** A set of public exceptions none of whose links leads out of it. */
  ghost predicate PublicOnly(part: set<Exc>)
    reads part
  {
    forall x | x in part ::
      && x.kind == Public
      && (x.cause == null || x.cause in part)
      && (x.context == null || x.context in part)
  }

  /** A chain of links, each a cause or a context. */
  ghost predicate Chain(p: seq<Exc>)
    reads set x | x in p
  {
    forall i | 0 <= i < |p| - 1 :: p[i].cause == p[i + 1] || p[i].context == p[i + 1]
  }

  /** However far a traceback walks, it meets no private classification. */
  lemma {:induction false} ChainsStayPublic(part: set<Exc>, p: seq<Exc>)
    requires PublicOnly(part) && p != [] && p[0] in part && Chain(p)
    ensures forall x | x in p :: x in part && x.kind == Public
    decreases |p|
  {
    if |p| > 1 {
      assert p[0].cause == p[1] || p[0].context == p[1];
      assert Chain(p[1..]) by {
        forall i | 0 <= i < |p[1..]| - 1
          ensures p[1..][i].cause == p[1..][i + 1] || p[1..][i].context == p[1..][i + 1]
        {
          assert p[1..][i] == p[i + 1] && p[1..][i + 1] == p[i + 2];
        }
      }
      ChainsStayPublic(part, p[1..]);
      assert p == [p[0]] + p[1..];
    }
  }

  /**
   A graph in the middle of a scrub: what each exception met is replaced by, and in whose place each
   public one stands, its own or that of a private exception.
   */
  datatype Snapshot = Snapshot(seen: map<Exc, Exc?>, source: map<Exc, Exc>, cause: map<Exc, Exc?>,
                               context: map<Exc, Exc?>, suppress: map<Exc, bool>)

  ghost function LinkIn(s: Snapshot, x: Exc, a: Attribute): Exc? {
    if a == Cause then (if x in s.cause then s.cause[x] else null)
    else if x in s.context then s.context[x] else null
  }

  /** Replacements are public, and public exceptions stand for themselves. */
  ghost predicate SeenPublic(seen: map<Exc, Exc?>, all: set<Exc>) {
    && seen.Keys <= all
    && (forall x | x in seen && seen[x] != null :: seen[x].kind == Public && seen[x] in seen)
    && (forall x | x in seen && x.kind == Public :: seen[x] == x)
  }

  ghost predicate Fit(link: Exc?, seen: map<Exc, Exc?>) {
    link == null || (link.kind == Public && link in seen)
  }

  /**
   Every public exception met has only links a caller may see, but for those whose links are being
   rewritten.
   */
  ghost predicate Sound(s: Snapshot, all: set<Exc>, open: set<Exc>) {
    && Carriers(all) && s.cause.Keys == all && s.context.Keys == all
    && (forall x | x in all :: (s.cause[x] == null || s.cause[x] in all) && (s.context[x] == null || s.context[x] in all))
    && SeenPublic(s.seen, all) && open <= s.seen.Keys
    && (forall x | x in s.seen && x.kind == Public && x !in open :: Fit(s.cause[x], s.seen) && Fit(s.context[x], s.seen))
  }

  /** Rewriting a link to something a caller may see keeps all of it. */
  lemma SoundRelink(s: Snapshot, all: set<Exc>, open: set<Exc>, x: Exc, a: Attribute, value: Exc?)
    requires Sound(s, all, open) && x in all && Fit(value, s.seen)
    ensures a == Cause ==> Sound(s.(cause := s.cause[x := value]), all, open)
    ensures a == Context ==> Sound(s.(context := s.context[x := value]), all, open)
  {
  }

  /** The dictionary with a new exception in it, and what stands for that. */
  ghost function Entered(seen: map<Exc, Exc?>, exc: Exc, standIn: Exc?): map<Exc, Exc?> {
    if standIn == null then seen[exc := null] else seen[exc := standIn][standIn := standIn]
  }

  lemma EnteredPublic(seen: map<Exc, Exc?>, all: set<Exc>, exc: Exc, standIn: Exc?)
    requires SeenPublic(seen, all) && exc in all && exc !in seen
    requires standIn != null ==> standIn in all && standIn.kind == Public
    requires exc.kind == Public ==> standIn == exc
    ensures SeenPublic(Entered(seen, exc, standIn), all)
    ensures seen.Keys <= Entered(seen, exc, standIn).Keys
    ensures all - Entered(seen, exc, standIn).Keys < all - seen.Keys
    ensures forall x | x in seen && x.kind == Public :: Entered(seen, exc, standIn)[x] == seen[x]
  {
    assert exc in all - seen.Keys;
  }

  lemma FitGrows(link: Exc?, seen: map<Exc, Exc?>, more: map<Exc, Exc?>)
    requires Fit(link, seen) && seen.Keys <= more.Keys
    ensures Fit(link, more)
  {
  }

  lemma SoundGrows(s: Snapshot, all: set<Exc>, open: set<Exc>, seen: map<Exc, Exc?>, now: set<Exc>)
    requires Sound(s, all, open) && SeenPublic(seen, all) && s.seen.Keys <= seen.Keys && open <= now <= seen.Keys
    requires forall x | x in seen && x !in s.seen && x.kind == Public :: x in now
    ensures Sound(s.(seen := seen), all, now)
  {
    forall x | x in seen && x.kind == Public && x !in now
      ensures Fit(s.cause[x], seen) && Fit(s.context[x], seen)
    {
      FitGrows(s.cause[x], s.seen, seen);
      FitGrows(s.context[x], s.seen, seen);
    }
    hide Fit;
  }

  /** Meeting a new exception: itself if it is public, else its stand-in with it, if that is new. */
  ghost function Enter(s: Snapshot, exc: Exc, standIn: Exc?): Snapshot {
    var source := if standIn == null || standIn in s.seen then s.source else s.source[standIn := exc];
    s.(seen := Entered(s.seen, exc, standIn), source := source)
  }

  /** Whose links are to be looked at next: the stand-in's if it is new, else those of the exception. */
  ghost function Opened(s: Snapshot, exc: Exc, standIn: Exc?): Exc {
    if standIn == null || standIn in s.seen then exc else standIn
  }

  lemma SoundEnter(s: Snapshot, all: set<Exc>, open: set<Exc>, exc: Exc, standIn: Exc?)
    requires Sound(s, all, open) && exc in all && exc !in s.seen
    requires standIn != null ==> standIn in all && standIn.kind == Public
    requires exc.kind == Public ==> standIn == exc
    ensures var next := Enter(s, exc, standIn);
            && Sound(next, all, open + {Opened(s, exc, standIn)}) && Opened(s, exc, standIn) !in open
            && all - next.seen.Keys < all - s.seen.Keys
            && exc !in open
            && forall o :: Respects(s, next, o)
  {
    SoundSeen(s, all, open);
    EnteredPublic(s.seen, all, exc, standIn);
    var next := Enter(s, exc, standIn);
    SoundGrows(s, all, open, next.seen, open + {Opened(s, exc, standIn)});
    hide SeenPublic, Fit, Respects, Carriers;
    forall o
      ensures Respects(s, next, o)
    {
      OnlySeenGrew(s, next, o);
    }
  }

  lemma SoundSettle(s: Snapshot, all: set<Exc>, open: set<Exc>, exc: Exc, kept: Exc)
    requires Sound(s, all, open) && exc in s.seen && exc.kind != Public && kept in s.seen && kept.kind == Public
    ensures Sound(s.(seen := s.seen[exc := kept]), all, open)
  {
  }

  /** A link to a public exception other than oneself. */
  ghost predicate Settled(links: map<Exc, Exc?>, x: Exc) {
    x in links && links[x] != null && links[x].kind == Public && links[x] != x
  }

  /**
   What a scrub may not change: what is displayed, the links of private exceptions and of those it
   does not meet, any link that already leads to another public exception, and of those whose links
   are being rewritten the cause and the context, which may only be filled.
   */
  ghost predicate Respects(a: Snapshot, b: Snapshot, open: set<Exc>) {
    && a.cause.Keys == b.cause.Keys == a.context.Keys == b.context.Keys
    && a.suppress == b.suppress
    && a.seen.Keys <= b.seen.Keys
    && (forall x | x in a.seen && x.kind == Public :: b.seen[x] == a.seen[x])
    && (forall x | x in a.cause && (x.kind != Public || x !in b.seen) ::
          b.cause[x] == a.cause[x] && b.context[x] == a.context[x])
    && (forall x | x in a.cause && (x in open || Settled(a.cause, x)) :: b.cause[x] == a.cause[x])
    && (forall x | Settled(a.context, x) && x in b.context :: b.context[x] == a.context[x])
    && (forall x | x in open && x in a.context && a.context[x] != null :: b.context[x] == a.context[x])
  }

  lemma RespectsChains(a: Snapshot, b: Snapshot, c: Snapshot, open: set<Exc>)
    requires Respects(a, b, open) && Respects(b, c, open)
    ensures Respects(a, c, open)
  {
    forall x | x in a.cause && (x in open || Settled(a.cause, x))
      ensures c.cause[x] == a.cause[x]
    {
      assert Settled(a.cause, x) ==> Settled(b.cause, x);
    }
    forall x | Settled(a.context, x) && x in c.context
      ensures c.context[x] == a.context[x]
    {
      assert Settled(b.context, x);
    }
  }

  lemma SoundSeen(s: Snapshot, all: set<Exc>, open: set<Exc>)
    requires Sound(s, all, open)
    ensures s.cause.Keys == s.context.Keys && open <= s.seen.Keys && s.seen.Keys <= all
    ensures forall x | x in s.seen && x.kind == Public :: s.seen[x] == x
  {
  }

  /** Filling a context nobody uses changes nothing that was there. */
  lemma FreeSlot(s: Snapshot, kept: Exc, carried: Exc, open: set<Exc>)
    requires kept in s.cause && kept in s.context && kept in s.seen && kept.kind == Public && s.context[kept] == null
    requires s.cause.Keys == s.context.Keys
    ensures Respects(s, s.(context := s.context[kept := carried]), open)
  {
  }

  lemma OnlySeenGrew(a: Snapshot, b: Snapshot, open: set<Exc>)
    requires a.cause.Keys == a.context.Keys && a.seen.Keys <= b.seen.Keys
    requires b.cause == a.cause && b.context == a.context && b.suppress == a.suppress
    requires forall x | x in a.seen && x.kind == Public :: b.seen[x] == a.seen[x]
    ensures Respects(a, b, open)
  {
  }

  /** A link that already led to another public exception keeps leading there. */
  ghost predicate KeepsSettled(before: Snapshot, target: Exc, a: Attribute, value: Exc?) {
    Settled(if a == Cause then before.cause else before.context, target) ==>
      target in before.cause && target in before.context && value == LinkIn(before, target, a)
  }

  lemma SettledKeeps(before: Snapshot, target: Exc, a: Attribute, own: Exc?, carried: Exc?)
    requires target in before.cause && target in before.context && own == LinkIn(before, target, a)
    requires own != null && own.kind == Public && own != target ==> carried == own
    ensures KeepsSettled(before, target, a, carried)
  {
  }

  lemma RespectsCause(a: Snapshot, b: Snapshot, x: Exc, value: Exc?, open: set<Exc>)
    requires Respects(a, b, open + {x}) && x in b.cause && x in b.seen && x.kind == Public && x !in open
    requires Settled(a.cause, x) ==> value == a.cause[x]
    ensures Respects(a, b.(cause := b.cause[x := value]), open)
  {
  }

  lemma RespectsContext(a: Snapshot, b: Snapshot, x: Exc, value: Exc?, open: set<Exc>)
    requires Respects(a, b, open + {x}) && x in b.context && x in b.seen && x.kind == Public && x !in open
    requires Settled(a.context, x) ==> value == a.context[x]
    ensures Respects(a, b.(context := b.context[x := value]), open)
  {
  }

  /** Rewriting one link of one public exception, as long as it was not a settled one. */
  lemma RespectsRelink(a: Snapshot, b: Snapshot, target: Exc, at: Attribute, value: Exc?, open: set<Exc>)
    requires Respects(a, b, open + {target}) && target in b.cause && target in b.context && target in b.seen
    requires target.kind == Public && target !in open && KeepsSettled(a, target, at, value)
    ensures at == Cause ==> Respects(a, b.(cause := b.cause[target := value]), open)
    ensures at == Context ==> Respects(a, b.(context := b.context[target := value]), open)
  {
    assert Settled(if at == Cause then a.cause else a.context, target) ==> value == LinkIn(a, target, at);
    hide Respects;
    if at == Cause {
      RespectsCause(a, b, target, value, open);
    } else {
      RespectsContext(a, b, target, value, open);
    }
  }

  // ── what a scrub owes ───────────────────────────────

  /** What may be attached in place of an exception of the graph. */
  ghost function StandIn(x: Exc, all: set<Exc>): Exc? {
    if x in all && Carriers(all) then PublicCause(x, all) else null
  }

  /** What a link that led to `z` may lead to. */
  ghost function Values(s: Snapshot, all: set<Exc>, z: Exc?): set<Exc?> {
    if z == null then {null}
    else if z.kind == Public then {z}
    else if z in s.seen then {StandIn(z, all), s.seen[z]}
    else {}
  }

  /** `x` leads to `v` in place of `link`; where it stands for another exception, never to itself. */
  ghost predicate LinkIs(s: Snapshot, all: set<Exc>, x: Exc, itself: bool, link: Exc?, v: Exc?) {
    || (v in Values(s, all, link) && (itself || v != x))
    || (!itself && v == null && x in Values(s, all, link))
  }

  /** `v` was hung under `x` because both stand for branches of one private exception. */
  ghost predicate Hung(first: Snapshot, s: Snapshot, all: set<Exc>, x: Exc, v: Exc?) {
    exists y | y in s.seen && y.kind != Public ::
      x in Values(s, all, LinkIn(first, y, Cause)) && v in Values(s, all, LinkIn(first, y, Context))
  }

  /**
   What a link of a public exception may be: what its own link stands for, or where it had none and
   stands for a private exception, what that one's link stands for; a context left empty by that may
   hold the second branch of a private exception whose first it is.
   */
  ghost predicate Lawful(first: Snapshot, s: Snapshot, all: set<Exc>, x: Exc, a: Attribute) {
    x in s.source &&
    var own, v, itself := LinkIn(first, x, a), LinkIn(s, x, a), s.source[x] == x;
    var link := if own == null then LinkIn(first, s.source[x], a) else own;
    || LinkIs(s, all, x, itself, link, v)
    || (a == Context && v != null && Hung(first, s, all, x, v) && (own == null || LinkIs(s, all, x, itself, link, null)))
  }

  ghost predicate Obeys(first: Snapshot, s: Snapshot, all: set<Exc>, x: Exc) {
    Lawful(first, s, all, x, Cause) && Lawful(first, s, all, x, Context)
  }

  /** Of two branches the first that says something the stand-in does not, else the stand-in. */
  function Pick(standIn: Exc?, f: Exc?, g: Exc?): Exc? {
    if f != null && f != standIn then f else if g != null && g != standIn then g else standIn
  }

  /** The private exception `x` stands for has a context, which `x` is to take over. */
  ghost predicate Reserved(first: Snapshot, s: Snapshot, x: Exc) {
    x in s.source && s.source[x] != x && LinkIn(first, s.source[x], Context) != null
  }

  /** The second of two branches is not dropped while the first has room for it. */
  ghost predicate Filled(first: Snapshot, s: Snapshot, standIn: Exc?, f: Exc?, g: Exc?) {
    f != null && f != standIn && g != null && g != standIn && g != f ==>
      LinkIn(first, f, Context) != null || Reserved(first, s, f) || Settled(s.context, f)
  }

  ghost predicate Chose(first: Snapshot, s: Snapshot, all: set<Exc>, y: Exc, v: Exc?) {
    exists f, g | f in Values(s, all, LinkIn(first, y, Cause)) && g in Values(s, all, LinkIn(first, y, Context)) ::
      v == Pick(StandIn(y, all), f, g) && Filled(first, s, StandIn(y, all), f, g)
  }

  /** A private exception gave way to a stand-in nobody had met, or to what its own links stand for. */
  ghost predicate Stood(first: Snapshot, s: Snapshot, all: set<Exc>, y: Exc) {
    && y in s.seen
    && (StandIn(y, all) == null || StandIn(y, all) in s.source)
    && ((StandIn(y, all) != null && s.source[StandIn(y, all)] == y && s.seen[y] == StandIn(y, all)) ||
        Chose(first, s, all, y, s.seen[y]))
  }

  ghost predicate Linked(first: Snapshot, seen: map<Exc, Exc?>, x: Exc) {
    exists h | h in seen :: LinkIn(first, h, Cause) == x || LinkIn(first, h, Context) == x
  }

  /** Every public exception met stands for itself or for a private one met, whose stand-in it is. */
  ghost predicate Sources(s: Snapshot, all: set<Exc>) {
    && (forall x | x in s.seen && x.kind == Public :: x in s.source)
    && (forall x | x in s.source :: x in s.seen && x.kind == Public && s.source[x] in s.seen &&
          (s.source[x] == x || (s.source[x].kind != Public && StandIn(s.source[x], all) == x)))
  }

  /** Only what was asked for or led to stands for itself. */
  ghost predicate Wanted(first: Snapshot, root: Exc?, s: Snapshot) {
    forall x | x in s.source && s.source[x] == x :: x == root || Linked(first, s.seen, x)
  }

  ghost predicate AllLawful(first: Snapshot, s: Snapshot, all: set<Exc>, open: set<Exc>) {
    forall x | x in s.source && x !in open :: Obeys(first, s, all, x)
  }

  ghost predicate Untouched(first: Snapshot, s: Snapshot, all: set<Exc>) {
    forall x | x in all && (x.kind != Public || x !in s.seen) ::
      LinkIn(s, x, Cause) == LinkIn(first, x, Cause) && LinkIn(s, x, Context) == LinkIn(first, x, Context)
  }

  ghost predicate AllStood(first: Snapshot, s: Snapshot, all: set<Exc>, open: set<Exc>) {
    forall y | y in s.seen && y.kind != Public ::
      if y in open then s.seen[y] == StandIn(y, all) else Stood(first, s, all, y)
  }

  /** A context that was empty leads to another public exception once it is filled. */
  ghost predicate FillsSettle(first: Snapshot, s: Snapshot) {
    forall x | x in s.source && LinkIn(first, x, Context) == null && LinkIn(s, x, Context) != null :: Settled(s.context, x)
  }

  ghost predicate Waiting(first: Snapshot, s: Snapshot, all: set<Exc>, x: Exc) {
    || LinkIn(s, x, Context) == LinkIn(first, x, Context)
    || (LinkIn(first, x, Context) == null && LinkIn(s, x, Context) != null && LinkIn(s, x, Context) in s.seen &&
        Hung(first, s, all, x, LinkIn(s, x, Context)))
  }

  /** While its cause is looked at, a context is as it was, or filled by a second branch. */
  ghost predicate AllWaiting(first: Snapshot, s: Snapshot, all: set<Exc>, open: set<Exc>) {
    forall x | x in open && x.kind == Public :: x in s.source && Waiting(first, s, all, x)
  }

  /** Every replacement and every link so far is accounted for by the links there were at first. */
  ghost predicate Accounted(first: Snapshot, root: Exc?, s: Snapshot, all: set<Exc>, open: set<Exc>) {
    && Sources(s, all) && Wanted(first, root, s) && AllLawful(first, s, all, open) && Untouched(first, s, all)
    && AllStood(first, s, all, open) && FillsSettle(first, s) && AllWaiting(first, s, all, open)
  }

  ghost predicate Extends<T>(m: map<Exc, T>, n: map<Exc, T>) {
    forall x | x in m :: x in n && n[x] == m[x]
  }

  /** Nothing that accounted for a link before stops doing so. */
  ghost predicate Onward(first: Snapshot, s: Snapshot, t: Snapshot, all: set<Exc>) {
    && (forall z | z in s.seen :: z in t.seen && Values(s, all, z) <= Values(t, all, z))
    && (forall x | x in s.context && Settled(s.context, x) && !Reserved(first, s, x) :: Settled(t.context, x))
    && Extends(s.source, t.source)
  }

  lemma ValuesGrow(first: Snapshot, s: Snapshot, t: Snapshot, all: set<Exc>, z: Exc?)
    requires Onward(first, s, t, all)
    ensures Values(s, all, z) <= Values(t, all, z)
  {
  }

  lemma OnwardFrom(first: Snapshot, s: Snapshot, t: Snapshot, all: set<Exc>, open: set<Exc>)
    requires Respects(s, t, open) && Extends(s.seen, t.seen) && Extends(s.source, t.source)
    ensures Onward(first, s, t, all)
  {
    hide StandIn;
  }

  lemma HungGrows(first: Snapshot, s: Snapshot, t: Snapshot, all: set<Exc>, x: Exc, v: Exc?)
    requires Onward(first, s, t, all) && Hung(first, s, all, x, v)
    ensures Hung(first, t, all, x, v)
  {
    hide LinkIn, Values;
    var y :| y in s.seen && y.kind != Public &&
      x in Values(s, all, LinkIn(first, y, Cause)) && v in Values(s, all, LinkIn(first, y, Context));
    ValuesGrow(first, s, t, all, LinkIn(first, y, Cause));
    ValuesGrow(first, s, t, all, LinkIn(first, y, Context));
  }

  lemma LawGrows(first: Snapshot, s: Snapshot, t: Snapshot, all: set<Exc>, x: Exc, a: Attribute)
    requires Onward(first, s, t, all) && Lawful(first, s, all, x, a) && LinkIn(t, x, a) == LinkIn(s, x, a)
    ensures Lawful(first, t, all, x, a)
  {
    hide LinkIn, Values, Hung;
    var own, v := LinkIn(first, x, a), LinkIn(s, x, a);
    ValuesGrow(first, s, t, all, if own == null then LinkIn(first, s.source[x], a) else own);
    if a == Context && v != null && Hung(first, s, all, x, v) {
      HungGrows(first, s, t, all, x, v);
    }
  }

  lemma ChoseGrows(first: Snapshot, s: Snapshot, t: Snapshot, all: set<Exc>, y: Exc, v: Exc?)
    requires Onward(first, s, t, all) && Chose(first, s, all, y, v)
    ensures Chose(first, t, all, y, v)
  {
    hide LinkIn, Values, StandIn, Pick;
    var f, g :| f in Values(s, all, LinkIn(first, y, Cause)) && g in Values(s, all, LinkIn(first, y, Context)) &&
      v == Pick(StandIn(y, all), f, g) && Filled(first, s, StandIn(y, all), f, g);
    ValuesGrow(first, s, t, all, LinkIn(first, y, Cause));
    ValuesGrow(first, s, t, all, LinkIn(first, y, Context));
    assert Filled(first, t, StandIn(y, all), f, g);
  }

  lemma StoodGrows(first: Snapshot, s: Snapshot, t: Snapshot, all: set<Exc>, y: Exc)
    requires Onward(first, s, t, all) && Stood(first, s, all, y) && t.seen[y] == s.seen[y]
    ensures Stood(first, t, all, y)
  {
    hide LinkIn, Values, StandIn, Chose, Settled;
    if Chose(first, s, all, y, s.seen[y]) {
      ChoseGrows(first, s, t, all, y, s.seen[y]);
    }
  }

  lemma LinkedGrows(first: Snapshot, seen: map<Exc, Exc?>, more: map<Exc, Exc?>, x: Exc)
    requires Linked(first, seen, x) && seen.Keys <= more.Keys
    ensures Linked(first, more, x)
  {
  }

  lemma SeenGrows(first: Snapshot, s: Snapshot, t: Snapshot, all: set<Exc>)
    requires Onward(first, s, t, all)
    ensures s.seen.Keys <= t.seen.Keys
  {
  }

  lemma EnterExtends(s: Snapshot, all: set<Exc>, open: set<Exc>, exc: Exc, standIn: Exc?)
    requires Sound(s, all, open) && exc !in s.seen && (standIn != null ==> standIn.kind == Public)
    requires Sources(s, all)
    ensures Extends(s.seen, Enter(s, exc, standIn).seen) && Extends(s.source, Enter(s, exc, standIn).source)
    ensures Enter(s, exc, standIn).context == s.context
  {
    SoundSeen(s, all, open);
    hide StandIn, Sound;
  }

  lemma EnterGrows(first: Snapshot, s: Snapshot, t: Snapshot, all: set<Exc>)
    requires Extends(s.seen, t.seen) && Extends(s.source, t.source) && t.context == s.context
    ensures Onward(first, s, t, all)
  {
    hide StandIn, Settled;
  }

  lemma EnterSources(first: Snapshot, root: Exc?, s: Snapshot, all: set<Exc>, exc: Exc, standIn: Exc?)
    requires Sources(s, all) && Wanted(first, root, s)
    requires exc !in s.seen && standIn == StandIn(exc, all)
    requires exc.kind == Public ==> standIn == exc
    requires standIn != null ==> standIn.kind == Public
    requires exc == root || Linked(first, s.seen, exc)
    ensures Sources(Enter(s, exc, standIn), all) && Wanted(first, root, Enter(s, exc, standIn))
  {
    hide StandIn, Linked;
    var t := Enter(s, exc, standIn);
    forall x | x in t.source && t.source[x] == x && x != root
      ensures Linked(first, t.seen, x)
    {
      LinkedGrows(first, s.seen, t.seen, x);
    }
  }

  ghost predicate SameLinks(s: Snapshot, t: Snapshot, x: Exc) {
    LinkIn(t, x, Cause) == LinkIn(s, x, Cause) && LinkIn(t, x, Context) == LinkIn(s, x, Context)
  }

  /** Laws kept: of a link untouched since, or anew. */
  lemma LawfulOn(first: Snapshot, s: Snapshot, t: Snapshot, all: set<Exc>, open: set<Exc>, now: set<Exc>)
    requires Onward(first, s, t, all) && AllLawful(first, s, all, open)
    requires forall x | x in t.source && x !in now ::
               (x in s.source && x !in open && SameLinks(s, t, x)) || Obeys(first, t, all, x)
    ensures AllLawful(first, t, all, now)
  {
    hide Lawful, Onward, LinkIn;
    forall x | x in t.source && x !in now
      ensures Obeys(first, t, all, x)
    {
      if !Obeys(first, t, all, x) {
        LawGrows(first, s, t, all, x, Cause);
        LawGrows(first, s, t, all, x, Context);
      }
    }
  }

  lemma StoodOn(first: Snapshot, s: Snapshot, t: Snapshot, all: set<Exc>, open: set<Exc>, now: set<Exc>)
    requires Onward(first, s, t, all) && AllStood(first, s, all, open)
    requires forall y | y in t.seen && y.kind != Public ::
               if y in now then t.seen[y] == StandIn(y, all)
               else (y in s.seen && y !in open && t.seen[y] == s.seen[y]) || Stood(first, t, all, y)
    ensures AllStood(first, t, all, now)
  {
    hide Stood, Onward, StandIn;
    forall y | y in t.seen && y.kind != Public && y !in now
      ensures Stood(first, t, all, y)
    {
      if !Stood(first, t, all, y) {
        StoodGrows(first, s, t, all, y);
      }
    }
  }

  lemma WaitingOn(first: Snapshot, s: Snapshot, t: Snapshot, all: set<Exc>, open: set<Exc>, now: set<Exc>)
    requires Onward(first, s, t, all) && AllWaiting(first, s, all, open)
    requires forall x | x in now && x.kind == Public ::
               x in t.source && ((x in open && LinkIn(t, x, Context) == LinkIn(s, x, Context)) || Waiting(first, t, all, x))
    ensures AllWaiting(first, t, all, now)
  {
    hide Onward, Hung, LinkIn;
    forall x | x in now && x.kind == Public
      ensures Waiting(first, t, all, x)
    {
      if !Waiting(first, t, all, x) {
        assert Waiting(first, s, all, x);
        if LinkIn(s, x, Context) != LinkIn(first, x, Context) {
          SeenGrows(first, s, t, all);
          HungGrows(first, s, t, all, x, LinkIn(s, x, Context));
        }
      }
    }
  }

  lemma EnterLawful(first: Snapshot, s: Snapshot, all: set<Exc>, open: set<Exc>, exc: Exc, standIn: Exc?)
    requires Onward(first, s, Enter(s, exc, standIn), all) && AllLawful(first, s, all, open)
    ensures AllLawful(first, Enter(s, exc, standIn), all, open + {Opened(s, exc, standIn)})
  {
    hide Lawful, Onward, Entered;
    assert forall x :: SameLinks(s, Enter(s, exc, standIn), x);
    LawfulOn(first, s, Enter(s, exc, standIn), all, open, open + {Opened(s, exc, standIn)});
  }

  lemma EnterStood(first: Snapshot, s: Snapshot, all: set<Exc>, open: set<Exc>, exc: Exc, standIn: Exc?)
    requires Onward(first, s, Enter(s, exc, standIn), all) && Extends(s.seen, Enter(s, exc, standIn).seen)
    requires AllStood(first, s, all, open) && open <= s.seen.Keys && exc !in s.seen && standIn == StandIn(exc, all)
    requires exc.kind == Public ==> standIn == exc
    requires standIn != null ==> standIn.kind == Public
    ensures AllStood(first, Enter(s, exc, standIn), all, open + {Opened(s, exc, standIn)})
  {
    hide Onward, Chose, StandIn;
    StoodOn(first, s, Enter(s, exc, standIn), all, open, open + {Opened(s, exc, standIn)});
  }

  lemma EnterWaiting(first: Snapshot, s: Snapshot, all: set<Exc>, open: set<Exc>, exc: Exc, standIn: Exc?)
    requires Onward(first, s, Enter(s, exc, standIn), all) && AllWaiting(first, s, all, open) && Untouched(first, s, all)
    requires standIn != null ==> standIn in all && standIn.kind == Public
    requires exc.kind == Public ==> standIn == exc
    requires exc !in s.seen
    ensures AllWaiting(first, Enter(s, exc, standIn), all, open + {Opened(s, exc, standIn)})
  {
    hide Onward, Hung;
    WaitingOn(first, s, Enter(s, exc, standIn), all, open, open + {Opened(s, exc, standIn)});
  }

  lemma EnterFills(first: Snapshot, s: Snapshot, all: set<Exc>, exc: Exc, standIn: Exc?)
    requires FillsSettle(first, s) && Untouched(first, s, all)
    requires standIn != null ==> standIn in all && standIn.kind == Public
    ensures FillsSettle(first, Enter(s, exc, standIn))
    ensures exc !in s.seen ==> Untouched(first, Enter(s, exc, standIn), all)
  {
  }

  lemma EnterAccounted(first: Snapshot, root: Exc?, s: Snapshot, all: set<Exc>, open: set<Exc>, exc: Exc, standIn: Exc?)
    requires Sound(s, all, open) && Accounted(first, root, s, all, open)
    requires exc in all && exc !in s.seen && standIn == StandIn(exc, all)
    requires exc == root || Linked(first, s.seen, exc)
    ensures Accounted(first, root, Enter(s, exc, standIn), all, open + {Opened(s, exc, standIn)})
    ensures Extends(s.seen, Enter(s, exc, standIn).seen) && Extends(s.source, Enter(s, exc, standIn).source)
  {
    SoundSeen(s, all, open);
    assert standIn == PublicCause(exc, all);
    hide Sound, Sources, Wanted, AllLawful, Untouched, AllStood, FillsSettle, AllWaiting, Linked, Enter, Opened, StandIn;
    EnterExtends(s, all, open, exc, standIn);
    EnterGrows(first, s, Enter(s, exc, standIn), all);
    EnterSources(first, root, s, all, exc, standIn);
    EnterLawful(first, s, all, open, exc, standIn);
    EnterStood(first, s, all, open, exc, standIn);
    EnterWaiting(first, s, all, open, exc, standIn);
    EnterFills(first, s, all, exc, standIn);
  }

  lemma Parts(first: Snapshot, root: Exc?, s: Snapshot, all: set<Exc>, open: set<Exc>)
    ensures Accounted(first, root, s, all, open) <==>
              && Sources(s, all) && Wanted(first, root, s) && AllLawful(first, s, all, open) && Untouched(first, s, all)
              && AllStood(first, s, all, open) && FillsSettle(first, s) && AllWaiting(first, s, all, open)
  {
    hide Sources, Wanted, AllLawful, Untouched, AllStood, FillsSettle, AllWaiting;
  }

  /** The same but for the links of `x`. */
  ghost predicate OneRelinked(first: Snapshot, s: Snapshot, t: Snapshot, x: Exc) {
    && t.seen == s.seen && t.source == s.source && x in s.source
    && (forall z | z in s.seen.Keys + s.cause.Keys + t.cause.Keys + s.context.Keys + t.context.Keys ::
          z != x ==> SameLinks(s, t, z))
    && (Settled(s.context, x) ==> Reserved(first, s, x) || Settled(t.context, x))
  }

  lemma RelinkedRest(first: Snapshot, root: Exc?, s: Snapshot, t: Snapshot, all: set<Exc>, x: Exc)
    requires OneRelinked(first, s, t, x) && Sources(s, all) && Wanted(first, root, s) && Untouched(first, s, all)
    ensures Sources(t, all) && Wanted(first, root, t) && Untouched(first, t, all)
  {
    hide StandIn, Linked;
    forall z | z in all && (z.kind != Public || z !in t.seen)
      ensures LinkIn(t, z, Cause) == LinkIn(first, z, Cause) && LinkIn(t, z, Context) == LinkIn(first, z, Context)
    {
      if z in s.seen.Keys + s.cause.Keys + t.cause.Keys + s.context.Keys + t.context.Keys {
        assert SameLinks(s, t, z);
      }
    }
  }

  lemma RelinkedFills(first: Snapshot, s: Snapshot, t: Snapshot, all: set<Exc>, x: Exc)
    requires OneRelinked(first, s, t, x) && FillsSettle(first, s) && Sources(s, all)
    requires LinkIn(first, x, Context) == null && LinkIn(t, x, Context) != null ==> Settled(t.context, x)
    ensures FillsSettle(first, t) && Onward(first, s, t, all)
  {
    hide StandIn, Linked;
    forall z | z in s.source && z != x && LinkIn(first, z, Context) == null && LinkIn(t, z, Context) != null
      ensures Settled(t.context, z)
    {
      assert SameLinks(s, t, z);
    }
    forall z | z in s.context && Settled(s.context, z) && !Reserved(first, s, z)
      ensures Settled(t.context, z)
    {
      assert z == x || SameLinks(s, t, z);
    }
    hide Settled;
  }

  lemma RelinkedLawful(first: Snapshot, s: Snapshot, t: Snapshot, all: set<Exc>, open: set<Exc>, now: set<Exc>, x: Exc)
    requires OneRelinked(first, s, t, x) && Onward(first, s, t, all) && AllLawful(first, s, all, open) && Sources(s, all)
    requires now <= open <= now + {x} && (x in now || Obeys(first, t, all, x))
    ensures AllLawful(first, t, all, now)
  {
    hide StandIn, Lawful, Onward, SameLinks, Settled;
    LawfulOn(first, s, t, all, open, now);
  }

  lemma RelinkedStood(first: Snapshot, s: Snapshot, t: Snapshot, all: set<Exc>, open: set<Exc>, now: set<Exc>, x: Exc)
    requires OneRelinked(first, s, t, x) && Onward(first, s, t, all) && AllStood(first, s, all, open) && Sources(s, all)
    requires now <= open <= now + {x}
    ensures AllStood(first, t, all, now)
  {
    hide StandIn, Stood, Onward, SameLinks, Settled;
    StoodOn(first, s, t, all, open, now);
  }

  lemma RelinkedWaiting(first: Snapshot, s: Snapshot, t: Snapshot, all: set<Exc>, open: set<Exc>, now: set<Exc>, x: Exc)
    requires OneRelinked(first, s, t, x) && Onward(first, s, t, all) && AllWaiting(first, s, all, open) && Sources(s, all)
    requires now <= open && (x in now && LinkIn(t, x, Context) != LinkIn(s, x, Context) ==> Waiting(first, t, all, x))
    ensures AllWaiting(first, t, all, now)
  {
    hide StandIn, Waiting, Onward, Settled, LinkIn;
    forall z | z in now && z.kind == Public
      ensures z in t.source && (LinkIn(t, z, Context) == LinkIn(s, z, Context) || Waiting(first, t, all, z))
    {
      assert z in s.source && z in s.seen;
      assert z != x ==> SameLinks(s, t, z);
    }
    WaitingOn(first, s, t, all, open, now);
  }

  lemma RelinksCause(first: Snapshot, s: Snapshot, x: Exc, value: Exc?)
    requires x in s.source
    ensures var t := s.(cause := s.cause[x := value]);
            OneRelinked(first, s, t, x) && LinkIn(t, x, Context) == LinkIn(s, x, Context) &&
            (Settled(s.context, x) ==> Settled(t.context, x))
  {
    hide Settled;
  }

  lemma RelinksContext(first: Snapshot, s: Snapshot, x: Exc, value: Exc?)
    requires x in s.source && (Settled(s.context, x) ==> Reserved(first, s, x) || value == s.context[x])
    ensures var t := s.(context := s.context[x := value]);
            && OneRelinked(first, s, t, x) && SameCause(s, t, x) && LinkIn(t, x, Context) == value
            && LinkIn(t, x, Cause) == LinkIn(s, x, Cause)
            && (value != null && value.kind == Public && value != x ==> Settled(t.context, x))
  {
  }

  lemma FreeContext(s: Snapshot, x: Exc)
    requires LinkIn(s, x, Context) == null
    ensures !Settled(s.context, x)
  {
  }

  /** Rewriting the cause of one whose links are being looked at. */
  lemma CauseAccounted(first: Snapshot, root: Exc?, s: Snapshot, all: set<Exc>, open: set<Exc>, x: Exc, value: Exc?)
    requires Accounted(first, root, s, all, open) && x in open && x in s.source
    ensures Accounted(first, root, s.(cause := s.cause[x := value]), all, open)
  {
    hide *;
    var t := s.(cause := s.cause[x := value]);
    RelinksCause(first, s, x, value);
    Parts(first, root, s, all, open);
    FillsAt(first, s, x);
    RelinkedRest(first, root, s, t, all, x);
    RelinkedFills(first, s, t, all, x);
    RelinkedLawful(first, s, t, all, open, open, x);
    RelinkedStood(first, s, t, all, open, open, x);
    RelinkedWaiting(first, s, t, all, open, open, x);
    Parts(first, root, t, all, open);
  }

  lemma FillsAt(first: Snapshot, s: Snapshot, x: Exc)
    requires FillsSettle(first, s) && x in s.source
    ensures LinkIn(first, x, Context) == null && LinkIn(s, x, Context) != null ==> Settled(s.context, x)
  {
  }

  /** Rewriting its context is the last that is done to it. */
  lemma ContextAccounted(first: Snapshot, root: Exc?, s: Snapshot, all: set<Exc>, open: set<Exc>, x: Exc, value: Exc?)
    requires Accounted(first, root, s, all, open + {x}) && x !in open && x in s.source
    requires Lawful(first, s, all, x, Cause) && Lawful(first, s.(context := s.context[x := value]), all, x, Context)
    requires Settled(s.context, x) ==> Reserved(first, s, x) || value == s.context[x]
    requires LinkIn(first, x, Context) == null && value != null ==> value.kind == Public && value != x
    ensures Accounted(first, root, s.(context := s.context[x := value]), all, open)
  {
    hide *;
    var t := s.(context := s.context[x := value]);
    RelinksContext(first, s, x, value);
    Parts(first, root, s, all, open + {x});
    RelinkedRest(first, root, s, t, all, x);
    RelinkedFills(first, s, t, all, x);
    LawGrows(first, s, t, all, x, Cause);
    ObeysIs(first, t, all, x);
    RelinkedLawful(first, s, t, all, open + {x}, open, x);
    RelinkedStood(first, s, t, all, open + {x}, open, x);
    RelinkedWaiting(first, s, t, all, open + {x}, open, x);
    Parts(first, root, t, all, open);
  }

  lemma ObeysIs(first: Snapshot, t: Snapshot, all: set<Exc>, x: Exc)
    requires Lawful(first, t, all, x, Cause) && Lawful(first, t, all, x, Context)
    ensures Obeys(first, t, all, x)
  {
  }

  /** The second branch of a private exception takes a free context of the first. */
  lemma HangAccounted(first: Snapshot, root: Exc?, s: Snapshot, all: set<Exc>, open: set<Exc>,
                      kept: Exc, carried: Exc, y: Exc)
    requires Accounted(first, root, s, all, open) && kept in s.source && LinkIn(s, kept, Context) == null
    requires kept in s.context && kept.kind == Public
    requires carried.kind == Public && carried != kept && carried in s.seen && y in s.seen && y.kind != Public
    requires kept in Values(s, all, LinkIn(first, y, Cause)) && carried in Values(s, all, LinkIn(first, y, Context))
    ensures Accounted(first, root, s.(context := s.context[kept := carried]), all, open)
  {
    hide *;
    var t := s.(context := s.context[kept := carried]);
    FreeContext(s, kept);
    RelinksContext(first, s, kept, carried);
    Parts(first, root, s, all, open);
    RelinkedRest(first, root, s, t, all, kept);
    RelinkedFills(first, s, t, all, kept);
    HungHere(first, s, t, all, kept, carried, y);
    KeptLawful(first, s, t, all, open, kept, carried);
    RelinkedLawful(first, s, t, all, open, open, kept);
    RelinkedStood(first, s, t, all, open, open, kept);
    WaitsHung(first, s, t, all, open, kept);
    RelinkedWaiting(first, s, t, all, open, open, kept);
    Parts(first, root, t, all, open);
  }

  ghost predicate SameCause(s: Snapshot, t: Snapshot, x: Exc) {
    LinkIn(t, x, Cause) == LinkIn(s, x, Cause)
  }

  lemma WaitsHung(first: Snapshot, s: Snapshot, t: Snapshot, all: set<Exc>, open: set<Exc>, kept: Exc)
    requires AllWaiting(first, s, all, open) && LinkIn(s, kept, Context) == null && kept.kind == Public
    requires Hung(first, t, all, kept, LinkIn(t, kept, Context))
    requires LinkIn(t, kept, Context) != null && LinkIn(t, kept, Context) in t.seen
    ensures kept in open ==> Waiting(first, t, all, kept)
  {
    hide LinkIn, Hung;
    assert kept in open ==> Waiting(first, s, all, kept);
  }

  lemma HungHere(first: Snapshot, s: Snapshot, t: Snapshot, all: set<Exc>, kept: Exc, carried: Exc, y: Exc)
    requires Onward(first, s, t, all) && y in s.seen && y.kind != Public
    requires kept in Values(s, all, LinkIn(first, y, Cause)) && carried in Values(s, all, LinkIn(first, y, Context))
    ensures Hung(first, t, all, kept, carried)
  {
    assert Hung(first, s, all, kept, carried);
    HungGrows(first, s, t, all, kept, carried);
  }

  lemma KeptLawful(first: Snapshot, s: Snapshot, t: Snapshot, all: set<Exc>, open: set<Exc>, kept: Exc, carried: Exc)
    requires AllLawful(first, s, all, open) && Onward(first, s, t, all) && kept in s.source
    requires LinkIn(s, kept, Context) == null && LinkIn(t, kept, Context) == carried && Hung(first, t, all, kept, carried)
    requires SameCause(s, t, kept)
    ensures kept in open || Obeys(first, t, all, kept)
  {
    hide LinkIn, Values, Hung;
    if kept !in open {
      assert Lawful(first, s, all, kept, Cause) && Lawful(first, s, all, kept, Context);
      LawGrows(first, s, t, all, kept, Cause);
      var own := LinkIn(first, kept, Context);
      ValuesGrow(first, s, t, all, if own == null then LinkIn(first, s.source[kept], Context) else own);
    }
  }

  lemma SettleGrows(first: Snapshot, s: Snapshot, all: set<Exc>, y: Exc, v: Exc?)
    requires y in s.seen && y.kind != Public && s.seen[y] == StandIn(y, all)
    ensures Onward(first, s, s.(seen := s.seen[y := v]), all)
  {
    hide StandIn, Settled;
  }

  lemma SettleSources(first: Snapshot, root: Exc?, s: Snapshot, all: set<Exc>, y: Exc, v: Exc?)
    requires Sources(s, all) && Wanted(first, root, s) && Untouched(first, s, all) && FillsSettle(first, s)
    requires y in s.seen && y.kind != Public
    ensures var t := s.(seen := s.seen[y := v]);
            Sources(t, all) && Wanted(first, root, t) && Untouched(first, t, all) && FillsSettle(first, t)
  {
    var t := s.(seen := s.seen[y := v]);
    hide StandIn, Linked, Settled;
    forall x | x in t.source && t.source[x] == x && x != root
      ensures Linked(first, t.seen, x)
    {
      LinkedGrows(first, s.seen, t.seen, x);
    }
  }

  lemma SettleStood(first: Snapshot, s: Snapshot, all: set<Exc>, open: set<Exc>, y: Exc, v: Exc?)
    requires AllStood(first, s, all, open + {y}) && y !in open && y in s.seen && y.kind != Public
    requires Chose(first, s, all, y, v) && (StandIn(y, all) == null || StandIn(y, all) in s.source)
    requires Onward(first, s, s.(seen := s.seen[y := v]), all)
    ensures AllStood(first, s.(seen := s.seen[y := v]), all, open)
  {
    var t := s.(seen := s.seen[y := v]);
    ChoseGrows(first, s, t, all, y, v);
    hide StandIn, Chose, Onward;
    StoodOn(first, s, t, all, open + {y}, open);
  }

  lemma SettleLawful(first: Snapshot, s: Snapshot, all: set<Exc>, open: set<Exc>, y: Exc, v: Exc?)
    requires Onward(first, s, s.(seen := s.seen[y := v]), all) && y.kind != Public && Sources(s, all)
    requires AllLawful(first, s, all, open + {y}) && AllWaiting(first, s, all, open + {y})
    ensures AllLawful(first, s.(seen := s.seen[y := v]), all, open)
    ensures AllWaiting(first, s.(seen := s.seen[y := v]), all, open)
  {
    var t := s.(seen := s.seen[y := v]);
    assert forall x :: SameLinks(s, t, x);
    hide StandIn, Lawful, Onward, Hung, LinkIn;
    LawfulOn(first, s, t, all, open + {y}, open);
    assert forall x :: LinkIn(t, x, Context) == LinkIn(s, x, Context);
    hide Waiting, SameLinks;
    WaitingOn(first, s, t, all, open + {y}, open);
  }

  /** A private exception is done with once it is replaced by what its branches stand for. */
  lemma SettleAccounted(first: Snapshot, root: Exc?, s: Snapshot, all: set<Exc>, open: set<Exc>, y: Exc, v: Exc?)
    requires Accounted(first, root, s, all, open + {y}) && y !in open && y in s.seen && y.kind != Public
    requires Chose(first, s, all, y, v) && (StandIn(y, all) == null || StandIn(y, all) in s.source)
    ensures Accounted(first, root, s.(seen := s.seen[y := v]), all, open)
  {
    hide *;
    Parts(first, root, s, all, open + {y});
    InProgress(first, s, all, open + {y}, y);
    SettleGrows(first, s, all, y, v);
    SettleSources(first, root, s, all, y, v);
    SettleStood(first, s, all, open, y, v);
    SettleLawful(first, s, all, open, y, v);
    Parts(first, root, s.(seen := s.seen[y := v]), all, open);
  }

  lemma InProgress(first: Snapshot, s: Snapshot, all: set<Exc>, open: set<Exc>, y: Exc)
    requires AllStood(first, s, all, open) && y in s.seen && y.kind != Public && y in open
    ensures s.seen[y] == StandIn(y, all)
  {
  }

  /** What is followed is the link the law names, or a context that was filled since it was looked for. */
  ghost predicate Followed(first: Snapshot, s: Snapshot, all: set<Exc>, target: Exc, exc: Exc, a: Attribute,
                           own: Exc?, link: Exc?) {
    var mine := LinkIn(first, target, a);
    if own == mine then link == if mine == null then LinkIn(first, exc, a) else mine
    else a == Context && mine == null && own != null && link == own && own.kind == Public && own != target &&
         Hung(first, s, all, target, own)
  }

  /** A context may be written over while it is reserved, and never with its owner. */
  ghost predicate MayFillIn(first: Snapshot, s: Snapshot, x: Exc, v: Exc?) {
    && (Settled(s.context, x) ==> Reserved(first, s, x) || v == s.context[x])
    && (LinkIn(first, x, Context) == null && v != null ==> v.kind == Public && v != x)
  }

  lemma CauseObeys(first: Snapshot, before: Snapshot, s: Snapshot, all: set<Exc>, target: Exc, exc: Exc,
                   own: Exc?, link: Exc?, found: Exc?, v: Exc?)
    requires target in s.source && s.source[target] == exc
    requires Followed(first, before, all, target, exc, Cause, own, link) && found in Values(s, all, link)
    requires v == if exc != target && found == target then null else found
    ensures Lawful(first, s.(cause := s.cause[target := v]), all, target, Cause)
  {
    hide StandIn, Hung;
    var t := s.(cause := s.cause[target := v]);
    assert Values(t, all, link) == Values(s, all, link);
    assert LinkIn(t, target, Cause) == v;
    hide Values, LinkIn;
  }

  lemma ContextObeys(first: Snapshot, before: Snapshot, s: Snapshot, all: set<Exc>, target: Exc, exc: Exc,
                     own: Exc?, link: Exc?, found: Exc?, v: Exc?)
    requires target in s.source && s.source[target] == exc && Onward(first, before, s, all)
    requires Followed(first, before, all, target, exc, Context, own, link) && found in Values(s, all, link)
    requires v == if exc != target && found == target then null else found
    ensures Lawful(first, s.(context := s.context[target := v]), all, target, Context)
  {
    hide StandIn, Onward;
    var t := s.(context := s.context[target := v]);
    assert Values(t, all, link) == Values(s, all, link);
    assert LinkIn(t, target, Context) == v;
    if own != LinkIn(first, target, Context) {
      assert v == own by { hide Hung; }
      HungGrows(first, before, s, all, target, own);
      HungLater(first, s, t, all, target, own);
    }
    hide Values, LinkIn, Hung;
  }

  lemma HungLater(first: Snapshot, s: Snapshot, t: Snapshot, all: set<Exc>, x: Exc, v: Exc?)
    requires Hung(first, s, all, x, v) && t.seen == s.seen
    ensures Hung(first, t, all, x, v)
  {
    hide LinkIn, StandIn;
  }

  lemma MayFillContext(first: Snapshot, before: Snapshot, s: Snapshot, all: set<Exc>, open: set<Exc>, target: Exc, exc: Exc,
                       own: Exc?, link: Exc?, found: Exc?, v: Exc?)
    requires Respects(before, s, open + {target}) && Extends(before.source, s.source)
    requires target in before.source && before.source[target] == exc && target in before.context
    requires own == LinkIn(before, target, Context) && Followed(first, before, all, target, exc, Context, own, link)
    requires found in Values(s, all, link) && (link == null ==> s == before)
    requires v == if exc != target && found == target then null else found
    requires v != null ==> v.kind == Public
    ensures MayFillIn(first, s, target, v)
  {
    hide Hung, StandIn;
    assert s.source[target] == exc;
    assert own != null ==> LinkIn(s, target, Context) == own;
    hide Respects, Extends;
    if own != null && own.kind == Public {
      assert found == link == own;
    }
  }

  lemma CauseKept(s: Snapshot, t: Snapshot, open: set<Exc>, x: Exc)
    requires Respects(s, t, open) && x in open && x in s.cause
    ensures LinkIn(t, x, Cause) == LinkIn(s, x, Cause)
  {
  }

  /** Both links of an exception may be seen: it is done with. */
  lemma SoundClose(s: Snapshot, all: set<Exc>, open: set<Exc>, x: Exc)
    requires Sound(s, all, open + {x}) && Fit(LinkIn(s, x, Cause), s.seen) && Fit(LinkIn(s, x, Context), s.seen)
    ensures Sound(s, all, open)
  {
    hide Fit;
  }

  /** A private exception needs nothing of the kind. */
  lemma SoundClosePrivate(s: Snapshot, all: set<Exc>, open: set<Exc>, x: Exc)
    requires Sound(s, all, open + {x}) && x.kind != Public
    ensures Sound(s, all, open)
  {
    hide Fit;
  }

  lemma WaitsIs(first: Snapshot, root: Exc?, s: Snapshot, all: set<Exc>, open: set<Exc>, x: Exc)
    requires Accounted(first, root, s, all, open) && x in open && x.kind == Public
    ensures var c := LinkIn(s, x, Context);
            || c == LinkIn(first, x, Context)
            || (LinkIn(first, x, Context) == null && c != null && c in s.seen && c.kind == Public && c != x &&
                Hung(first, s, all, x, c))
  {
    hide Sources, Wanted, AllLawful, Untouched, AllStood, Hung;
    assert Waiting(first, s, all, x);
  }

  lemma ExtendsChains<T>(a: map<Exc, T>, b: map<Exc, T>, c: map<Exc, T>)
    requires Extends(a, b) && Extends(b, c)
    ensures Extends(a, c)
  {
  }

  /** An entry made after the first state may have changed since. */
  lemma EntryStays<T>(a: map<Exc, T>, b: map<Exc, T>, c: map<Exc, T>, x: Exc)
    requires Extends(a, b) && x !in a && (forall z | z in b && z != x :: z in c && c[z] == b[z])
    ensures Extends(a, c)
  {
  }

  lemma SourceStays(a: map<Exc, Exc>, b: map<Exc, Exc>, x: Exc)
    requires Extends(a, b) && x in a
    ensures x in b && b[x] == a[x]
  {
  }

  /** The links there are, before anything was met. */
  ghost function Links(all: set<Exc>): Snapshot
    reads all
  {
    Snapshot(map[], map[], map x | x in all :: x.cause, map x | x in all :: x.context, map x | x in all :: x.suppress)
  }

  lemma StaysAt<T>(a: map<Exc, T>, b: map<Exc, T>, x: Exc)
    requires Extends(a, b) && x in a
    ensures x in b && b[x] == a[x]
  {
  }

  lemma UpdatedStays<T>(a: map<Exc, T>, b: map<Exc, T>, c: map<Exc, T>, x: Exc)
    requires Extends(a, b) && (c == b || (x in c && c == b[x := c[x]]))
    ensures forall z | z in a && z != x :: z in c && c[z] == a[z]
  {
  }

  lemma RespectsFewer(a: Snapshot, b: Snapshot, open: set<Exc>, x: Exc)
    requires Respects(a, b, open + {x})
    ensures Respects(a, b, open)
  {
  }

  lemma SameValues(s: Snapshot, t: Snapshot, all: set<Exc>)
    requires t.seen == s.seen
    ensures forall z: Exc? :: Values(t, all, z) == Values(s, all, z)
  {
    hide StandIn;
  }

  lemma FreeContextIs(s: Snapshot, x: Exc)
    requires x in s.context && LinkIn(s, x, Context) == null
    ensures s.context[x] == null
  {
  }

  lemma SettleRespects(s: Snapshot, x: Exc, kept: Exc, open: set<Exc>)
    requires s.cause.Keys == s.context.Keys && x in s.seen && x.kind != Public
    ensures Respects(s, s.(seen := s.seen[x := kept]), open)
  {
    OnlySeenGrew(s, s.(seen := s.seen[x := kept]), open);
  }

  lemma MayFillIs(first: Snapshot, s: Snapshot, x: Exc, v: Exc?)
    requires MayFillIn(first, s, x, v)
    ensures Settled(s.context, x) ==> Reserved(first, s, x) || v == s.context[x]
    ensures LinkIn(first, x, Context) == null && v != null ==> v.kind == Public && v != x
  {
    hide Reserved, LinkIn;
  }

  /** What is attached fits, and the cause is as it was. */
  lemma RelinksContextTo(s: Snapshot, x: Exc, v: Exc?)
    ensures var t := s.(context := s.context[x := v]);
            LinkIn(t, x, Context) == v && LinkIn(t, x, Cause) == LinkIn(s, x, Cause) && t.seen == s.seen
  {
  }

  lemma OpenedIs(s: Snapshot, exc: Exc, standIn: Exc?)
    requires exc !in s.seen && (standIn != null && standIn in s.seen ==> s.seen[standIn] == standIn)
    ensures var t, isNew := Enter(s, exc, standIn), standIn != null && standIn !in s.seen;
            && Opened(s, exc, standIn) == (if isNew then standIn else exc)
            && (isNew ==> standIn in t.source && t.source[standIn] == exc)
            && exc in t.seen && t.seen[exc] == standIn && (standIn != null ==> standIn in t.seen)
            && s.seen.Keys <= t.seen.Keys
  {
  }
}

/**
 The exception-graph scrub (backend/app/database.py:467-771): exceptions are linked by mutable cause
 and context fields into a graph that may be cyclic, and the scrub rewrites it in place until no
 private classification can be reached from what a caller is handed.
 */
module PublicGraph {
  import opened PublicLinks

  // ── the scrub ───────────────────────────────────────

  /** One scrub of what `root` reaches: what every exception met so far is to be replaced by. */
  class Scrub {
    var seen: map<Exc, Exc?>
    ghost var source: map<Exc, Exc>
    ghost const first: Snapshot
    ghost const root: Exc?

    constructor (ghost first: Snapshot, ghost root: Exc?)
      ensures seen == map[] && source == map[] && this.first == first && this.root == root
    {
      seen, source := map[], map[];
      this.first, this.root := first, root;
    }

    ghost predicate Inv(all: set<Exc>, open: set<Exc>)
      reads this, all
    {
      Sound(Shot(all), all, open) && Accounted(first, root, Shot(all), all, open)
    }

    /** The graph and the dictionary as they stand. */
    ghost function Shot(all: set<Exc>): Snapshot
      reads this, all
    {
      Links(all).(seen := seen, source := source)
    }

    /** Asked for, met already, or led to by one that was. */
    ghost predicate Owed(x: Exc)
      reads `seen
    {
      x in seen || x == root || Linked(first, seen, x)
    }

    lemma LinkInside(x: Exc, a: Attribute, all: set<Exc>, open: set<Exc>)
      requires Inv(all, open) && x in all
      ensures x.Link(a) != null ==> x.Link(a) in all
      ensures Carriers(all) && seen.Keys <= all && open <= seen.Keys
    {
      hide Accounted;
      ShotOf(x, a, all);
    }

    lemma Replacement(x: Exc, all: set<Exc>, open: set<Exc>)
      requires Inv(all, open) && x in seen
      ensures x in all && (x.kind == Public ==> seen[x] == x)
      ensures seen[x] != null ==> seen[x].kind == Public && seen[x] in seen && seen[x] in all
    {
      hide Accounted;
      SeenIs(all);
    }

    lemma SeenIs(all: set<Exc>)
      ensures Shot(all).seen == seen && Shot(all).source == source
    {
    }

    lemma Same(all: set<Exc>, open: set<Exc>)
      ensures Respects(Shot(all), Shot(all), open) && Shot(all).seen == seen
      ensures Extends(seen, seen) && Extends(source, source)
    {
    }

    lemma ShotOf(x: Exc, a: Attribute, all: set<Exc>)
      requires x in all
      ensures LinkIn(Shot(all), x, a) == x.Link(a) && x in Shot(all).cause && x in Shot(all).context
    {
    }

    lemma InvIs(all: set<Exc>, open: set<Exc>)
      ensures Inv(all, open) <==> Sound(Shot(all), all, open) && Accounted(first, root, Shot(all), all, open)
      ensures Shot(all).seen == seen && Shot(all).source == source
    {
      hide Sound, Accounted;
    }

    /** A private exception, and a public one not met, still has the links it had. */
    lemma UntouchedAt(x: Exc, a: Attribute, all: set<Exc>, open: set<Exc>)
      requires Inv(all, open) && x in all && (x.kind != Public || x !in seen)
      ensures x.Link(a) == LinkIn(first, x, a)
    {
      hide Sound, Sources, Wanted, AllLawful, AllStood, FillsSettle, AllWaiting;
      ShotOf(x, a, all);
    }

    lemma LeadsTo(h: Exc, a: Attribute)
      requires h in seen && LinkIn(first, h, a) != null
      ensures Owed(LinkIn(first, h, a))
    {
    }

    /** What a link is rewritten to is one of the things it may lead to. */
    lemma OneOf(link: Exc?, r: Exc?, all: set<Exc>)
      requires link == null ==> r == null
      requires link != null ==> link in seen && r == seen[link] && (link.kind == Public ==> r == link)
      ensures r in Values(Shot(all), all, link)
    {
    }

    /** `_public_graph`, below the top. */
    method Rewrite(exc: Exc?, ghost all: set<Exc>, ghost open: set<Exc>) returns (r: Exc?)
      requires Inv(all, open) && (exc != null ==> exc in all && Owed(exc))
      modifies this, all
      ensures Inv(all, open) && Respects(old(Shot(all)), Shot(all), open) && old(seen).Keys <= seen.Keys
      ensures Extends(old(seen), seen) && Extends(old(source), source)
      ensures exc == null ==> r == null && Shot(all) == old(Shot(all))
      ensures exc != null ==> exc in seen && r == seen[exc]
      ensures r != null ==> r.kind == Public && r in seen && r in all
      ensures exc != null && exc.kind == Public ==> r == exc
      ensures exc != null && exc in old(seen) ==> r == old(seen)[exc]
      ensures exc != null && exc !in old(seen) ==>
                && Carriers(all)
                && Replaces(exc, all, old(seen), old(exc.Link(Cause)), old(exc.Link(Context)), r)
      decreases all - seen.Keys, 3
    {
      hide *;
      Same(all, open);
      if exc == null {
        r := null;
      } else if exc in seen {
        Replacement(exc, all, open);
        r := seen[exc];
      } else if exc.kind == Public {
        LinkInside(exc, Cause, all, open);
        ReplacesItself(exc, all, seen, exc.Link(Cause), exc.Link(Context));
        RewritePublic(exc, all, open);
        LinkInside(exc, Cause, all, open);
        Replacement(exc, all, open);
        r := exc;
      } else {
        r := RewritePrivate(exc, all, open);
      }
    }

    method RewritePublic(exc: Exc, ghost all: set<Exc>, ghost open: set<Exc>)
      requires Inv(all, open) && exc in all && exc !in seen && exc.kind == Public && Owed(exc)
      modifies this, all
      ensures Inv(all, open) && Respects(old(Shot(all)), Shot(all), open) && exc in seen
      ensures old(seen).Keys <= seen.Keys
      ensures Extends(old(seen), seen) && Extends(old(source), source)
      decreases all - seen.Keys, 2
    {
      hide *;
      ghost var before, had, from := Shot(all), seen, source;
      UntouchedAt(exc, Cause, all, open);
      StandsForItself(exc, all, open);
      Meet(exc, exc, all, open);
      ghost var met, now, upon := Shot(all), seen, source;
      Visit(exc, exc, all, open);
      RespectsChains(before, met, Shot(all), open);
      ExtendsChains(had, now, seen);
      ExtendsChains(from, upon, source);
    }

    lemma StandsForItself(x: Exc, all: set<Exc>, open: set<Exc>)
      requires Inv(all, open) && x in all
      ensures Carriers(all) && StandIn(x, all) == PublicCause(x, all)
    {
      hide Accounted;
    }

    method RewritePrivate(exc: Exc, ghost all: set<Exc>, ghost open: set<Exc>) returns (r: Exc?)
      requires Inv(all, open) && exc in all && exc !in seen && exc.kind != Public && Owed(exc)
      modifies this, all
      ensures Inv(all, open) && Respects(old(Shot(all)), Shot(all), open) && exc in seen && r == seen[exc]
      ensures old(seen).Keys <= seen.Keys
      ensures Extends(old(seen), seen) && Extends(old(source), source)
      ensures r != null ==> r.kind == Public && r in seen && r in all
      ensures Carriers(all)
      ensures Replaces(exc, all, old(seen), old(exc.Link(Cause)), old(exc.Link(Context)), r)
      decreases all - seen.Keys, 2
    {
      hide *;
      ghost var before, cause, context := Shot(all), exc.Link(Cause), exc.Link(Context);
      ghost var had, from := seen, source;
      LinkInside(exc, Cause, all, open);
      StandsForItself(exc, all, open);
      var standIn := PublicCause(exc, all);
      var isNew := standIn != null && standIn !in seen;
      if isNew {
        UntouchedAt(standIn, Cause, all, open);
      }
      Meet(exc, standIn, all, open);
      ghost var met, now, upon := Shot(all), seen, source;
      if isNew {
        Visit(standIn, exc, all, open);
        r := standIn;
        Replacement(standIn, all, open);
        StaysAt(now, seen, exc);
        ExtendsChains(had, now, seen);
      } else {
        r := Keep(exc, standIn, all, open);
        EntryStays(had, now, seen, exc);
      }
      RespectsChains(before, met, Shot(all), open);
      ExtendsChains(from, upon, source);
      ReplacesPrivate(exc, all, had, cause, context, r);
    }

    /** Enter an exception and what stands for it into the dictionary; a new stand-in enters too. */
    method Meet(exc: Exc, standIn: Exc?, ghost all: set<Exc>, ghost open: set<Exc>)
      requires Inv(all, open) && exc in all && exc !in seen && Owed(exc)
      requires standIn != null ==> standIn in all && standIn.kind == Public
      requires exc.kind == Public ==> standIn == exc
      requires standIn == StandIn(exc, all)
      modifies `seen, `source
      ensures exc in seen && seen[exc] == standIn && (standIn != null ==> standIn in seen)
      ensures old(seen).Keys <= seen.Keys && Extends(old(seen), seen) && Extends(old(source), source)
      ensures standIn != null && standIn !in old(seen) ==>
                Inv(all, open + {standIn}) && standIn !in open && standIn in source && source[standIn] == exc
      ensures standIn == null || standIn in old(seen) ==> Inv(all, open + {exc})
      ensures all - seen.Keys < all - old(seen).Keys
      ensures exc !in open
      ensures Respects(old(Shot(all)), Shot(all), open)
    {
      hide *;
      ghost var before := Shot(all);
      InvIs(all, open);
      OwedIs(exc);
      SoundSeen(before, all, open);
      SoundEnter(before, all, open, exc, standIn);
      EnterAccounted(first, root, before, all, open, exc, standIn);
      OpenedIs(before, exc, standIn);
      EnterTwo(exc, standIn, all);
      InvIs(all, open + {exc});
      if standIn != null {
        InvIs(all, open + {standIn});
      }
    }

    method EnterTwo(exc: Exc, standIn: Exc?, ghost all: set<Exc>)
      modifies `seen, `source
      ensures Shot(all) == Enter(old(Shot(all)), exc, standIn)
    {
      if standIn != null && standIn !in seen {
        source := source[standIn := exc];
      }
      seen := seen[exc := standIn];
      if standIn != null {
        seen := seen[standIn := standIn];
      }
    }

    lemma OwedIs(x: Exc)
      ensures Owed(x) <==> x in seen || x == root || Linked(first, seen, x)
    {
    }

    /**
     Rewrite both links of `target`. Where it replaces the private `exc` and has a link of its own
     unset, the corresponding link of `exc` is taken up instead.
     */
    method Visit(target: Exc, exc: Exc, ghost all: set<Exc>, ghost open: set<Exc>)
      requires Inv(all, open + {target}) && target.kind == Public && target !in open && target in seen
      requires exc in all && exc in seen && target in source && source[target] == exc
      requires target.Link(Cause) == LinkIn(first, target, Cause)
      modifies this, all
      ensures Inv(all, open) && Respects(old(Shot(all)), Shot(all), open) && old(seen).Keys <= seen.Keys
      ensures Extends(old(seen), seen) && Extends(old(source), source)
      decreases all - seen.Keys, 5
    {
      hide *;
      ghost var before, had, from := Shot(all), seen, source;
      VisitLink(target, exc, Cause, all, open);
      ghost var between, now, upon := Shot(all), seen, source;
      SourceStays(from, source, target);
      VisitLink(target, exc, Context, all, open);
      RespectsChains(before, between, Shot(all), open);
      ExtendsChains(had, now, seen);
      ExtendsChains(from, upon, source);
    }

    /** One link of `target`; its cause comes first, and its context is the last of it to be touched. */
    method VisitLink(target: Exc, exc: Exc, a: Attribute, ghost all: set<Exc>, ghost open: set<Exc>)
      requires Inv(all, open + {target}) && target.kind == Public && target !in open && target in seen
      requires exc in all && exc in seen && target in source && source[target] == exc
      requires a == Cause ==> target.Link(Cause) == LinkIn(first, target, Cause)
      requires a == Context ==> Lawful(first, Shot(all), all, target, Cause) && Cleared(target, Cause)
      modifies this, all
      ensures Respects(old(Shot(all)), Shot(all), open) && old(seen).Keys <= seen.Keys
      ensures Extends(old(seen), seen) && Extends(old(source), source)
      ensures a == Cause ==>
                Inv(all, open + {target}) && Lawful(first, Shot(all), all, target, Cause) && Cleared(target, Cause)
      ensures a == Context ==> Inv(all, open)
      decreases all - seen.Keys, 4
    {
      hide *;
      ghost var before, from := Shot(all), source;
      Replacement(target, all, open + {target});
      LinkInside(target, a, all, open + {target});
      LinkInside(exc, a, all, open + {target});
      ShotOf(target, a, all);
      ShotOf(target, Cause, all);
      ClearedIs(target, Cause);
      FollowsLaw(target, exc, a, all, open);
      SeenIs(all);
      ghost var own := target.Link(a);
      var link := target.Link(a);
      if link == null {
        link := exc.Link(a);
      }
      var carried := Rewrite(link, all, open + {target});
      OneOf(link, carried, all);
      CauseStays(before, target, all, open);
      ClearedIs(target, Cause);
      SourceStays(from, source, target);
      ghost var found := carried;
      if exc != target && carried == target {
        carried := null;
      }
      SettledKeeps(before, target, a, own, carried);
      MayAttach(before, target, exc, a, own, link, found, carried, all, open);
      Reattach(target, a, carried, all, open, before);
    }

    /**
     The link followed is the one the law names, and owed; or it is a context that was filled since by
     the second branch of a private exception.
     */
    lemma FollowsLaw(target: Exc, exc: Exc, a: Attribute, all: set<Exc>, open: set<Exc>)
      requires Inv(all, open + {target}) && target.kind == Public && target in all && target in seen
      requires exc in all && exc in seen && target in source && source[target] == exc
      requires a == Cause ==> target.Link(Cause) == LinkIn(first, target, Cause)
      ensures var own, link := target.Link(a), if target.Link(a) == null then exc.Link(a) else target.Link(a);
              && (link != null ==> Owed(link))
              && Followed(first, Shot(all), all, target, exc, a, own, link)
    {
      WaitsOrFilled(target, all, open);
      PrivateSource(target, all, open);
      if exc != target {
        UntouchedAt(exc, a, all, open + {target});
      }
      ghost var own := target.Link(a);
      ghost var link := if own == null then exc.Link(a) else own;
      hide Linked, Inv, Shot, Hung, LinkIn;
      if link != null {
        if own == null && exc != target {
          LeadsTo(exc, a);
        } else if own == LinkIn(first, target, a) {
          LeadsTo(target, a);
        }
      }
    }

    lemma PrivateSource(target: Exc, all: set<Exc>, open: set<Exc>)
      requires Inv(all, open + {target}) && target in source
      ensures source[target] == target || source[target].kind != Public
    {
      hide Sound, Wanted, AllLawful, Untouched, AllStood, FillsSettle, AllWaiting, StandIn;
    }

    /** The context of one being looked at: as at first, or filled since by a branch that was met. */
    lemma WaitsOrFilled(target: Exc, all: set<Exc>, open: set<Exc>)
      requires Inv(all, open + {target}) && target.kind == Public && target in all && target in source
      ensures target.Link(Context) == LinkIn(first, target, Context) ||
              (LinkIn(first, target, Context) == null && target.Link(Context) != null && target.Link(Context) in seen &&
               target.Link(Context).kind == Public && target.Link(Context) != target &&
               Hung(first, Shot(all), all, target, target.Link(Context)))
    {
      hide *;
      ShotOf(target, Context, all);
      InvIs(all, open + {target});
      WaitsIs(first, root, Shot(all), all, open + {target}, target);
    }

    /** What is about to be attached obeys the law, and a context is filled only where it may be. */
    lemma MayAttach(before: Snapshot, target: Exc, exc: Exc, a: Attribute, own: Exc?, link: Exc?, found: Exc?,
                    v: Exc?, all: set<Exc>, open: set<Exc>)
      requires Respects(before, Shot(all), open + {target})
      requires Extends(before.seen, seen) && Extends(before.source, source)
      requires target in before.source && before.source[target] == exc && target in before.context && target in before.cause
      requires own == LinkIn(before, target, a) && Followed(first, before, all, target, exc, a, own, link)
      requires found in Values(Shot(all), all, link)
      requires link == null ==> Shot(all) == before
      requires a == Context ==> Lawful(first, before, all, target, Cause)
      requires v == if exc != target && found == target then null else found
      requires v != null ==> v.kind == Public
      ensures Lawful(first, With(target, a, v, all), all, target, a)
      ensures a == Context ==> Lawful(first, Shot(all), all, target, Cause) && MayFill(target, v, all)
    {
      hide *;
      SeenIs(all);
      OnwardFrom(first, before, Shot(all), all, open + {target});
      CauseKept(before, Shot(all), open + {target}, target);
      SourceStays(before.source, source, target);
      WithIs(target, a, v, all);
      if a == Context {
        LawGrows(first, before, Shot(all), all, target, Cause);
        ContextObeys(first, before, Shot(all), all, target, exc, own, link, found, v);
        MayFillContext(first, before, Shot(all), all, open, target, exc, own, link, found, v);
      } else {
        CauseObeys(first, before, Shot(all), all, target, exc, own, link, found, v);
      }
    }

    ghost function With(target: Exc, a: Attribute, v: Exc?, all: set<Exc>): Snapshot
      reads this, all
    {
      if a == Cause then Shot(all).(cause := Shot(all).cause[target := v])
      else Shot(all).(context := Shot(all).context[target := v])
    }

    lemma WithIs(target: Exc, a: Attribute, v: Exc?, all: set<Exc>)
      ensures a == Cause ==> With(target, a, v, all) == Shot(all).(cause := Shot(all).cause[target := v])
      ensures a == Context ==> With(target, a, v, all) == Shot(all).(context := Shot(all).context[target := v])
      ensures MayFill(target, v, all) <==> MayFillIn(first, Shot(all), target, v)
    {
    }

    ghost predicate MayFill(target: Exc, v: Exc?, all: set<Exc>)
      reads this, all
    {
      MayFillIn(first, Shot(all), target, v)
    }

    /** Put the scrubbed link in place. */
    method Reattach(target: Exc, a: Attribute, value: Exc?, ghost all: set<Exc>, ghost open: set<Exc>, ghost before: Snapshot)
      requires Inv(all, open + {target}) && target in all && target in seen && target.kind == Public && target !in open
      requires target in source
      requires value == null || (value.kind == Public && value in seen)
      requires Respects(before, Shot(all), open + {target})
      requires KeepsSettled(before, target, a, value)
      requires Lawful(first, With(target, a, value, all), all, target, a)
      requires a == Context ==>
                 Lawful(first, Shot(all), all, target, Cause) && MayFill(target, value, all) && Cleared(target, Cause)
      modifies target
      ensures Respects(before, Shot(all), open)
      ensures a == Cause ==>
                Inv(all, open + {target}) && Lawful(first, Shot(all), all, target, Cause) && Cleared(target, Cause)
      ensures a == Context ==> Inv(all, open)
    {
      hide *;
      ghost var mid := Shot(all);
      Replacement(target, all, open + {target});
      ShotOf(target, a, all);
      InvIs(all, open + {target});
      FitIs(value);
      WithIs(target, a, value, all);
      SoundRelink(mid, all, open + {target}, target, a, value);
      if a == Cause {
        CauseAccounted(first, root, mid, all, open + {target}, target, value);
      } else {
        CauseFits(target, all);
        MayFillIs(first, mid, target, value);
        ContextAccounted(first, root, mid, all, open, target, value);
        RelinksContextTo(mid, target, value);
        SoundClose(mid.(context := mid.context[target := value]), all, open, target);
      }
      RelinkOne(target, a, value, all);
      ClearedIs(target, Cause);
      InvIs(all, open + {target});
      InvIs(all, open);
      RespectsRelink(before, mid, target, a, value, open);
    }

    ghost predicate Cleared(x: Exc, a: Attribute)
      reads this, x
    {
      x.Link(a) == null || (x.Link(a).kind == Public && x.Link(a) in seen)
    }

    lemma ClearedIs(x: Exc, a: Attribute)
      ensures Cleared(x, a) <==> x.Link(a) == null || (x.Link(a).kind == Public && x.Link(a) in seen)
      ensures x.Link(Cause) == x.cause && x.Link(Context) == x.context
    {
    }

    lemma CauseFits(x: Exc, all: set<Exc>)
      requires Cleared(x, Cause) && x in all
      ensures Fit(LinkIn(Shot(all), x, Cause), Shot(all).seen)
    {
    }

    lemma CauseStays(before: Snapshot, target: Exc, all: set<Exc>, open: set<Exc>)
      requires Respects(before, Shot(all), open + {target}) && target in all && target in before.cause
      ensures target.Link(Cause) == LinkIn(before, target, Cause)
    {
    }

    lemma FitIs(value: Exc?)
      ensures Fit(value, seen) <==> value == null || (value.kind == Public && value in seen)
    {
    }

    method RelinkOne(target: Exc, a: Attribute, value: Exc?, ghost all: set<Exc>)
      requires target in all
      modifies target
      ensures target.Link(a) == value && (a == Context ==> target.cause == old(target.cause))
      ensures a == Cause ==> Shot(all) == old(Shot(all)).(cause := old(Shot(all)).cause[target := value])
      ensures a == Context ==> Shot(all) == old(Shot(all)).(context := old(Shot(all)).context[target := value])
    {
      target.Relink(a, value);
    }

    /** No stand-in, or one already in the graph: the slot keeps what else the private object led to. */
    method Keep(exc: Exc, standIn: Exc?, ghost all: set<Exc>, ghost open: set<Exc>) returns (r: Exc?)
      requires Inv(all, open + {exc}) && exc in all && exc.kind != Public && exc in seen && exc !in open
      requires standIn == null || (standIn in seen && standIn.kind == Public)
      requires standIn == StandIn(exc, all) && seen[exc] == standIn
      modifies this, all
      ensures Inv(all, open) && Respects(old(Shot(all)), Shot(all), open) && old(seen).Keys <= seen.Keys
      ensures forall z | z in old(seen) && z != exc :: z in seen && seen[z] == old(seen)[z]
      ensures Extends(old(source), source)
      ensures exc in seen && r == seen[exc]
      ensures r != null ==> r.kind == Public && r in seen && r in all
      ensures Kept(standIn, old(exc.Link(Cause)), old(exc.Link(Context)), r)
      decreases all - seen.Keys, 5
    {
      hide *;
      ghost var before, cause, context := Shot(all), exc.Link(Cause), exc.Link(Context);
      ghost var had := seen;
      var left, right := Branches(exc, all, open);
      ghost var both, now := Shot(all), seen;
      StaysAt(had, now, exc);
      var kept: Exc? := null;
      if left != null && left != standIn {
        kept := left;
      }
      if right != null && right != standIn && right != kept {
        if kept == null {
          kept := right;
        } else if kept.context == null {
          Hang(exc, kept, right, all, open + {exc});
          RespectsChains(before, both, Shot(all), open + {exc});
        }
      }
      r := standIn;
      if kept != null {
        r := kept;
        Replacement(kept, all, open + {exc});
      }
      ghost var hung := Shot(all);
      Choice(exc, standIn, cause, context, left, right, r, all, open + {exc});
      if kept != null {
        Settle(exc, kept, all, open);
      } else {
        SettleNothing(exc, all, open);
        Same(all, open);
      }
      RespectsFewer(before, hung, open, exc);
      RespectsChains(before, hung, Shot(all), open);
      UpdatedStays(had, now, seen, exc);
      KeptIs(standIn, cause, context, left, right, r);
      if r != null {
        Replacement(r, all, open);
      }
    }

    /** Both links of a private exception rewritten; neither changes. */
    method Branches(exc: Exc, ghost all: set<Exc>, ghost open: set<Exc>) returns (left: Exc?, right: Exc?)
      requires Inv(all, open + {exc}) && exc in all && exc.kind != Public && exc in seen
      modifies this, all
      ensures Inv(all, open + {exc}) && Respects(old(Shot(all)), Shot(all), open + {exc})
      ensures Extends(old(seen), seen) && Extends(old(source), source) && old(seen).Keys <= seen.Keys
      ensures var cause := old(exc.Link(Cause));
              && cause == LinkIn(first, exc, Cause) && left in Values(Shot(all), all, cause)
              && (cause == null ==> left == null) && (cause != null && cause.kind == Public ==> left == cause)
      ensures var context := old(exc.Link(Context));
              && context == LinkIn(first, exc, Context) && right in Values(Shot(all), all, context)
              && (context == null ==> right == null) && (context != null && context.kind == Public ==> right == context)
      ensures left != null ==> left.kind == Public && left in seen && left in all
      ensures right != null ==> right.kind == Public && right in seen && right in all
      decreases all - seen.Keys, 4
    {
      hide *;
      ghost var before, cause, context := Shot(all), exc.Link(Cause), exc.Link(Context);
      ghost var had, from := seen, source;
      BranchOwed(exc, Cause, all, open);
      BranchOwed(exc, Context, all, open);
      left := Rewrite(exc.Link(Cause), all, open + {exc});
      ghost var between, now, upon := Shot(all), seen, source;
      SeenIs(all);
      OneOf(cause, left, all);
      BranchOwed(exc, Context, all, open);
      right := Rewrite(exc.Link(Context), all, open + {exc});
      SeenIs(all);
      OneOf(context, right, all);
      OnwardFrom(first, between, Shot(all), all, open + {exc});
      ValuesGrow(first, between, Shot(all), all, cause);
      RespectsChains(before, between, Shot(all), open + {exc});
      ExtendsChains(had, now, seen);
      ExtendsChains(from, upon, source);
    }

    lemma BranchOwed(exc: Exc, a: Attribute, all: set<Exc>, open: set<Exc>)
      requires Inv(all, open + {exc}) && exc in all && exc.kind != Public && exc in seen
      ensures exc.Link(a) == LinkIn(first, exc, a)
      ensures exc.Link(a) != null ==> exc.Link(a) in all && Owed(exc.Link(a))
    {
      hide *;
      LinkInside(exc, a, all, open + {exc});
      UntouchedAt(exc, a, all, open + {exc});
      if exc.Link(a) != null {
        LeadsTo(exc, a);
      }
    }

    /** What a private exception gives way to is the choice the law names. */
    lemma Choice(exc: Exc, standIn: Exc?, cause: Exc?, context: Exc?, left: Exc?, right: Exc?, r: Exc?,
                 all: set<Exc>, open: set<Exc>)
      requires Inv(all, open) && standIn == StandIn(exc, all)
      requires cause == LinkIn(first, exc, Cause) && left in Values(Shot(all), all, cause)
      requires context == LinkIn(first, exc, Context) && right in Values(Shot(all), all, context)
      requires r == if left != null && left != standIn then left
                    else if right != null && right != standIn then right else standIn
      requires left != null ==> left.kind == Public && left in seen && left in all
      requires left != null && left != standIn && right != null && right != standIn && right != left ==> left.context != null
      ensures Chose(first, Shot(all), all, exc, r)
    {
      var s := Shot(all);
      if left != null {
        ShotOf(left, Context, all);
        assert LinkIn(s, left, Context) == left.context;
      }
      assert s.seen == seen;
      InvIs(all, open);
      hide Inv, Shot, Sound, Values, StandIn, Wanted, AllLawful, Untouched, AllStood, AllWaiting, LinkIn, Settled;
      assert left != null ==> left in s.source;
      assert Filled(first, s, standIn, left, right);
    }

    /** Two public branches and one slot: the second goes under the first, where there is room. */
    method Hang(exc: Exc, kept: Exc, carried: Exc, ghost all: set<Exc>, ghost open: set<Exc>)
      requires Inv(all, open) && kept in all && kept in seen && kept.kind == Public && kept.context == null
      requires carried in seen && carried.kind == Public && carried != kept && exc in seen && exc.kind != Public
      requires kept in Values(Shot(all), all, LinkIn(first, exc, Cause))
      requires carried in Values(Shot(all), all, LinkIn(first, exc, Context))
      modifies kept
      ensures Inv(all, open) && Respects(old(Shot(all)), Shot(all), open) && kept.context == carried
      ensures forall z: Exc? :: Values(Shot(all), all, z) == Values(old(Shot(all)), all, z)
    {
      hide *;
      ghost var before := Shot(all);
      InvIs(all, open);
      ShotOf(kept, Context, all);
      ClearedIs(kept, Context);
      FitIs(carried);
      SourceOf(kept, all, open);
      SoundRelink(before, all, open, kept, Context, carried);
      SoundSeen(before, all, open);
      FreeContextIs(before, kept);
      FreeSlot(before, kept, carried, open);
      HangAccounted(first, root, before, all, open, kept, carried, exc);
      RelinkOne(kept, Context, carried, all);
      ClearedIs(kept, Context);
      InvIs(all, open);
      SameValues(before, Shot(all), all);
    }

    lemma SourceOf(x: Exc, all: set<Exc>, open: set<Exc>)
      requires Inv(all, open) && x in seen && x.kind == Public
      ensures x in source
    {
      hide Sound, Wanted, AllLawful, Untouched, AllStood, FillsSettle, AllWaiting, StandIn;
    }

    method Settle(exc: Exc, kept: Exc, ghost all: set<Exc>, ghost open: set<Exc>)
      requires Inv(all, open + {exc}) && exc in seen && exc.kind != Public && exc !in open
      requires kept in seen && kept.kind == Public && Chose(first, Shot(all), all, exc, kept)
      modifies `seen
      ensures Inv(all, open) && Respects(old(Shot(all)), Shot(all), open) && seen == old(seen)[exc := kept]
    {
      hide *;
      ghost var before := Shot(all);
      InvIs(all, open + {exc});
      SoundSettle(before, all, open + {exc}, exc, kept);
      SoundClosePrivate(before.(seen := before.seen[exc := kept]), all, open, exc);
      SoundSeen(before, all, open + {exc});
      StandInSource(exc, all, open + {exc});
      SettleAccounted(first, root, before, all, open, exc, kept);
      SetSeen(exc, kept, all);
      InvIs(all, open);
      SettleRespects(before, exc, kept, open);
    }

    method SetSeen(exc: Exc, kept: Exc, ghost all: set<Exc>)
      modifies `seen
      ensures seen == old(seen)[exc := kept]
      ensures Shot(all) == old(Shot(all)).(seen := old(Shot(all)).seen[exc := kept])
    {
      seen := seen[exc := kept];
    }

    lemma StandInSource(exc: Exc, all: set<Exc>, open: set<Exc>)
      requires Inv(all, open) && exc in seen && exc.kind != Public && exc in open
      ensures StandIn(exc, all) == seen[exc] && (seen[exc] == null || seen[exc] in source)
    {
      SeenIs(all);
      Replacement(exc, all, open);
      InProgress(first, Shot(all), all, open, exc);
      if seen[exc] != null {
        SourceOf(seen[exc], all, open);
      }
    }

    /** With no branch to keep, the stand-in stands. */
    lemma SettleNothing(exc: Exc, all: set<Exc>, open: set<Exc>)
      requires Inv(all, open + {exc}) && exc in seen && exc.kind != Public && exc !in open
      requires Chose(first, Shot(all), all, exc, seen[exc])
      ensures Inv(all, open)
    {
      hide *;
      InvIs(all, open + {exc});
      StandInSource(exc, all, open + {exc});
      SoundClosePrivate(Shot(all), all, open, exc);
      SettleAccounted(first, root, Shot(all), all, open, exc, seen[exc]);
      assert seen[exc := seen[exc]] == seen;
      assert Shot(all).(seen := Shot(all).seen[exc := seen[exc]]) == Shot(all);
      InvIs(all, open);
    }
  }

  lemma KeptIs(standIn: Exc?, cause: Exc?, context: Exc?, first: Exc?, second: Exc?, r: Exc?)
    requires standIn != null ==> standIn.kind == Public
    requires cause == null ==> first == null
    requires context == null ==> second == null
    requires cause != null && cause.kind == Public ==> first == cause
    requires context != null && context.kind == Public ==> second == context
    requires r == if first != null && first != standIn then first
                  else if second != null && second != standIn then second else standIn
    ensures Kept(standIn, cause, context, r)
  {
  }

  lemma ReplacesItself(exc: Exc, all: set<Exc>, seen: map<Exc, Exc?>, cause: Exc?, context: Exc?)
    requires exc in all && Carriers(all) && exc.kind == Public
    ensures Replaces(exc, all, seen, cause, context, exc)
  {
  }

  lemma ReplacesPrivate(exc: Exc, all: set<Exc>, seen: map<Exc, Exc?>, cause: Exc?, context: Exc?, r: Exc?)
    requires exc in all && Carriers(all) && exc.kind != Public
    requires var standIn := PublicCause(exc, all);
             if standIn != null && standIn !in seen then r == standIn else Kept(standIn, cause, context, r)
    ensures Replaces(exc, all, seen, cause, context, r)
  {
    hide Kept, PublicCause;
  }

  /** What stands in place of a private exception whose stand-in adds nothing. */
  ghost predicate Kept(standIn: Exc?, cause: Exc?, context: Exc?, r: Exc?) {
    && (r == null ==> standIn == null)
    && (cause != null && cause.kind == Public && cause != standIn ==> r == cause)
    && ((cause == null || cause == standIn) && context != null && context.kind == Public && context != standIn ==>
          r == context)
    && (cause == null && context == null ==> r == standIn)
  }

  /** What an exception met for the first time is replaced by. */
  ghost predicate Replaces(exc: Exc, all: set<Exc>, seen: map<Exc, Exc?>, cause: Exc?, context: Exc?, r: Exc?)
    requires exc in all && Carriers(all)
  {
    var standIn := PublicCause(exc, all);
    if exc.kind == Public then r == exc
    else if standIn != null && standIn !in seen then r == standIn
    else Kept(standIn, cause, context, r)
  }

  // ── the whole scrub ─────────────────────────────────

  /**
   `_public_graph`: what is handed out lies in a set of public exceptions that no link leaves, made
   of exceptions that could be reached before; what was displayed, the links of private exceptions
   and every link that already led to another public one are as they were. `after` tells what each
   exception met gave way to and accounts for every link of every one of them.
   */
  method Scrubbed(exc: Exc?, ghost all: set<Exc>) returns (r: Exc?, ghost handed: set<Exc>, ghost after: Snapshot)
    requires Graph(all) && (exc != null ==> exc in all)
    modifies all
    ensures Graph(all) && handed <= all && PublicOnly(handed) && (r != null ==> r in handed)
    ensures exc == null ==> r == null
    ensures exc != null ==> Replaces(exc, all, map[], old(exc.Link(Cause)), old(exc.Link(Context)), r)
    ensures exc != null && exc.kind == Public ==> r == exc
    ensures forall x | x in all :: x.suppress == old(x.suppress)
    ensures forall x | x in all && x.kind != Public :: x.cause == old(x.cause) && x.context == old(x.context)
    ensures forall x | x in all && old(x.cause) != null && old(x.cause).kind == Public && old(x.cause) != x ::
              x.cause == old(x.cause)
    ensures forall x | x in all && old(x.context) != null && old(x.context).kind == Public && old(x.context) != x ::
              x.context == old(x.context)
    ensures Accounted(old(Links(all)), exc, after, all, {}) && handed == after.source.Keys
    ensures exc != null ==> exc in after.seen && r == after.seen[exc]
    ensures forall x | x in all :: x.cause == LinkIn(after, x, Cause) && x.context == LinkIn(after, x, Context)
  {
    hide *;
    LinksAt(all);
    var scrub := new Scrub(Links(all), exc);
    StartsSound(scrub, all);
    ghost var before := scrub.Shot(all);
    r := scrub.Rewrite(exc, all, {});
    handed, after := scrub.source.Keys, scrub.Shot(all);
    LinksAt(all);
    EndsPublic(scrub, all, handed);
    forall x | x in all
      ensures x.suppress == old(x.suppress)
      ensures x.kind != Public ==> x.cause == old(x.cause) && x.context == old(x.context)
      ensures old(x.cause) != null && old(x.cause).kind == Public && old(x.cause) != x ==> x.cause == old(x.cause)
      ensures old(x.context) != null && old(x.context).kind == Public && old(x.context) != x ==> x.context == old(x.context)
      ensures x.cause == LinkIn(after, x, Cause) && x.context == LinkIn(after, x, Context)
    {
      RespectsAt(before, after, {}, x);
    }
  }

  lemma LinksAt(all: set<Exc>)
    ensures var s := Links(all);
            && s.cause.Keys == all && s.context.Keys == all && s.suppress.Keys == all
            && forall x | x in all :: s.cause[x] == x.cause && s.context[x] == x.context && s.suppress[x] == x.suppress
  {
  }

  lemma RespectsAt(a: Snapshot, b: Snapshot, open: set<Exc>, x: Exc)
    requires Respects(a, b, open) && x in a.cause && x in b.cause && x in a.context && x in b.context
    ensures a.suppress == b.suppress
    ensures LinkIn(b, x, Cause) == b.cause[x] && LinkIn(b, x, Context) == b.context[x]
    ensures Settled(a.cause, x) <==> a.cause[x] != null && a.cause[x].kind == Public && a.cause[x] != x
    ensures Settled(a.context, x) <==> a.context[x] != null && a.context[x].kind == Public && a.context[x] != x
    ensures x.kind != Public ==> b.cause[x] == a.cause[x] && b.context[x] == a.context[x]
    ensures Settled(a.cause, x) ==> b.cause[x] == a.cause[x]
    ensures Settled(a.context, x) ==> b.context[x] == a.context[x]
  {
  }

  lemma StartsSound(scrub: Scrub, all: set<Exc>)
    requires Graph(all) && scrub.seen == map[] && scrub.source == map[] && scrub.first == Links(all)
    ensures scrub.Inv(all, {}) && scrub.Shot(all) == Links(all) && (forall x :: x == scrub.root ==> scrub.Owed(x))
  {
  }

  lemma EndsPublic(scrub: Scrub, all: set<Exc>, handed: set<Exc>)
    requires scrub.Inv(all, {}) && handed == scrub.source.Keys
    ensures Graph(all) && handed <= all && PublicOnly(handed)
    ensures Accounted(scrub.first, scrub.root, scrub.Shot(all), all, {})
    ensures forall x | x in scrub.seen && x.kind == Public :: x in handed
    ensures var s, now := scrub.Shot(all), Links(all);
            && s.seen == scrub.seen && s.source == scrub.source
            && s.cause == now.cause && s.context == now.context && s.suppress == now.suppress
  {
    var s := scrub.Shot(all);
    hide Wanted, AllLawful, Untouched, AllStood, FillsSettle, AllWaiting, StandIn, Linked;
    forall x | x in handed
      ensures (x.cause == null || x.cause in handed) && (x.context == null || x.context in handed)
    {
      assert Fit(s.cause[x], s.seen) && Fit(s.context[x], s.seen);
    }
  }

  /**
   No link is blanked: where a link led to another exception that something public stands for, it still
   leads somewhere, unless the only thing left to lead to is its owner, standing for a private one.
   */
  lemma NothingIsBlanked(first: Snapshot, root: Exc?, s: Snapshot, all: set<Exc>, x: Exc, a: Attribute)
    requires Accounted(first, root, s, all, {}) && x in s.source
    requires LinkIn(first, x, a) != null && LinkIn(first, x, a) in s.seen && StandIn(LinkIn(first, x, a), all) != null
    ensures LinkIn(s, x, a) != null || (s.source[x] != x && x in Values(s, all, LinkIn(first, x, a)))
  {
    hide Accounted, LinkIn, Hung, StandIn;
    LawAt(first, root, s, all, x, a);
    var link := LinkIn(first, x, a);
    if link.kind != Public {
      WorkerErrorsAreKept(first, root, s, all, link);
    }
  }

  lemma LawAt(first: Snapshot, root: Exc?, s: Snapshot, all: set<Exc>, x: Exc, a: Attribute)
    requires Accounted(first, root, s, all, {}) && x in s.source
    ensures Lawful(first, s, all, x, a)
  {
    hide Sources, Wanted, Untouched, AllStood, FillsSettle, AllWaiting, Lawful;
    assert Obeys(first, s, all, x);
  }

  /** The error a cancellation carried is handed out with the rest, wherever the cancellation was. */
  lemma WorkerErrorsAreKept(first: Snapshot, root: Exc?, s: Snapshot, all: set<Exc>, y: Exc)
    requires Accounted(first, root, s, all, {}) && y in s.seen && y.kind != Public && StandIn(y, all) != null
    ensures StandIn(y, all) in s.source && s.seen[y] != null
  {
    hide Sources, Wanted, AllLawful, Untouched, FillsSettle, AllWaiting, StandIn, LinkIn, Values, Filled;
    assert Stood(first, s, all, y);
  }

  /**
   What a private exception was carrying is promoted: where an exception took its place, it leads to
   the public exceptions the private one led to, as far as it had no links of its own.
   */
  lemma CarriedIsPromoted(first: Snapshot, root: Exc?, s: Snapshot, all: set<Exc>, x: Exc, a: Attribute)
    requires Accounted(first, root, s, all, {}) && x in s.source && s.source[x] != x && LinkIn(first, x, a) == null
    ensures var z := LinkIn(first, s.source[x], a);
            z != null && z.kind == Public && z != x ==>
              LinkIn(s, x, a) == z || (a == Context && LinkIn(s, x, a) != null && Hung(first, s, all, x, LinkIn(s, x, a)))
  {
    hide Accounted, LinkIn, Hung, StandIn;
    LawAt(first, root, s, all, x, a);
  }

  // ── reachability ────────────────────────────────────

  /** No link leads out of these. */
  ghost predicate LinkClosed(part: set<Exc>)
    reads part
  {
    forall x | x in part :: (x.cause == null || x.cause in part) && (x.context == null || x.context in part)
  }

  /** A chain from `start` to `x`. */
  ghost predicate Way(p: seq<Exc>, start: Exc, x: Exc)
    reads set y | y in p
  {
    p != [] && p[0] == start && p[|p| - 1] == x && Chain(p)
  }

  lemma NothingLeads(part: set<Exc>)
    requires forall x | x in part :: (x.cause == null || x.cause in part) && (x.context == null || x.context in part)
    ensures LinkClosed(part)
  {
  }

  lemma WayStarts(x: Exc)
    ensures Way([x], x, x)
  {
  }

  lemma WayGrows(p: seq<Exc>, start: Exc, x: Exc, next: Exc)
    requires Way(p, start, x) && (x.cause == next || x.context == next)
    ensures Way(p + [next], start, next)
  {
    var q := p + [next];
    forall i | 0 <= i < |q| - 1
      ensures q[i].cause == q[i + 1] || q[i].context == q[i + 1]
    {
    }
  }

  /**
   `_reaches`: is `target` anywhere in the graph of `start`? Found, there is a chain of links to it;
   not found, what was visited holds `start`, has no link out of it and does not hold `target`.
   */
  method Reaches(start: Exc, target: Exc, ghost all: set<Exc>)
      returns (found: bool, ghost way: seq<Exc>, ghost seen: set<Exc>)
    requires LinksWithin(all) && start in all
    ensures found ==> Way(way, start, target)
    ensures !found ==> start in seen && target !in seen && seen <= all && LinkClosed(seen)
  {
    hide Way, LinkClosed;
    WayStarts(start);
    var visited: set<Exc>, stack: seq<Exc?> := {}, [start];
    ghost var ways: map<Exc, seq<Exc>> := map[start := [start]];
    way := [];
    seen := {};
    while stack != []
      invariant visited <= all && target !in visited && visited <= ways.Keys
      invariant forall x | x in stack && x != null :: x in all && x in ways
      invariant forall x | x in ways :: Way(ways[x], start, x)
      invariant start in visited || start in stack
      invariant forall x | x in visited :: (x.cause == null || x.cause in visited || x.cause in stack) &&
                                          (x.context == null || x.context in visited || x.context in stack)
      decreases all - visited, |stack|
    {
      var n := |stack| - 1;
      var node := stack[n];
      assert stack == stack[..n] + [node];
      stack := stack[..n];
      if node != null && node !in visited {
        if node == target {
          found, way := true, ways[node];
          return;
        }
        assert node in all - visited;
        ghost var p := ways[node];
        if node.cause != null {
          WayGrows(p, start, node, node.cause);
          ways := ways[node.cause := p + [node.cause]];
        }
        if node.context != null {
          WayGrows(p, start, node, node.context);
          ways := ways[node.context := p + [node.context]];
        }
        visited := visited + {node};
        stack := stack + [node.cause, node.context];
      }
    }
    found, seen := false, visited;
    NothingLeads(visited);
  }

  // ── handing an exception out ────────────────────────

  /** The links among these exceptions. */
  ghost function Edges(all: set<Exc>): set<(Exc, Exc)>
    reads all
  {
    set x, y | x in all && y in all && (x.cause == y || x.context == y) :: (x, y)
  }

  ghost predicate Walk(p: seq<Exc>, edges: set<(Exc, Exc)>) {
    forall i | 0 <= i < |p| - 1 :: (p[i], p[i + 1]) in edges
  }

  /** A walk back to where it started. */
  ghost predicate Loop(p: seq<Exc>, edges: set<(Exc, Exc)>) {
    |p| > 1 && p[0] == p[|p| - 1] && Walk(p, edges)
  }

  lemma {:induction false} WalksStayInside(part: set<Exc>, edges: set<(Exc, Exc)>, p: seq<Exc>, i: nat, j: nat)
    requires forall x, y | (x, y) in edges && x in part :: y in part
    requires Walk(p, edges) && i <= j < |p| && p[i] in part
    ensures p[j] in part
    decreases j - i
  {
    if i < j {
      assert (p[i], p[i + 1]) in edges;
      WalksStayInside(part, edges, p, i + 1, j);
    }
  }

  /** A loop that enters a closed set never leaves it again, so no edge into it is on a loop from outside. */
  lemma NoLoopThrough(part: set<Exc>, edges: set<(Exc, Exc)>, p: seq<Exc>, i: nat)
    requires forall x, y | (x, y) in edges && x in part :: y in part
    requires Loop(p, edges) && i < |p| - 1 && p[i + 1] in part
    ensures p[i] in part
  {
    WalksStayInside(part, edges, p, i + 1, |p| - 1);
    WalksStayInside(part, edges, p, 0, i);
  }

  /** Whose reason a stand-in gives: its own cause when it has one. */
  function Reason(public: Exc): Exc
    reads public
  {
    if public.cause != null then public.cause else public
  }

  /**
   `_carry_raised_from`: hang what the private exception was raised from one link below its
   stand-in. It fills that slot if it is free and no chain leads back to it, nothing else, and
   never closes a loop.
   */
  method CarryRaisedFrom(public: Exc, exc: Exc, ghost all: set<Exc>) returns (ghost way: seq<Exc>)
    requires LinksWithin(all) && public in all && exc in all
    modifies all
    ensures LinksWithin(all)
    ensures forall x | x in all :: x.context == old(x.context) && x.suppress == old(x.suppress)
    ensures forall x | x in all && x.cause != old(x.cause) ::
              old(x.cause) == null && x.cause == old(exc.cause) && x == old(Reason(public))
    ensures var carried, reason := old(exc.cause), old(Reason(public));
            carried != null && carried != reason && old(reason.cause) == null ==>
              reason.cause == carried || Way(way, carried, reason)
    ensures forall p | Loop(p, Edges(all)) :: Loop(p, old(Edges(all)))
  {
    way := [];
    var carried := exc.cause;
    if carried == null {
      return;
    }
    var reason := Reason(public);
    if reason == carried || reason.cause != null {
      return;
    }
    var found;
    ghost var seen;
    found, way, seen := Reaches(carried, reason, all);
    if found {
      return;
    }
    ghost var before := Edges(all);
    reason.Relink(Cause, carried);
    ghost var edges := Edges(all);
    forall p | Loop(p, edges)
      ensures Loop(p, before)
    {
      forall i | 0 <= i < |p| - 1
        ensures (p[i], p[i + 1]) in before
      {
        assert (p[i], p[i + 1]) in edges;
        if p[i + 1] == carried {
          NoLoopThrough(seen, edges, p, i);
        }
      }
    }
  }

  /** A chain that starts among exceptions no link leaves stays among them. */
  lemma {:induction false} WayStaysInside(part: set<Exc>, p: seq<Exc>, start: Exc, x: Exc, i: nat)
    requires LinksWithin(part) && start in part && Way(p, start, x) && i < |p|
    ensures p[i] in part
    decreases i
  {
    if i > 0 {
      WayStaysInside(part, p, start, x, i - 1);
      assert p[i - 1].cause == p[i] || p[i - 1].context == p[i];
    }
  }

  lemma WayWalks(part: set<Exc>, p: seq<Exc>, start: Exc, x: Exc)
    requires LinksWithin(part) && start in part && Way(p, start, x)
    ensures Walk(p, Edges(part)) && x in part && p != [] && p[0] == start && p[|p| - 1] == x
  {
    WayStaysInside(part, p, start, x, |p| - 1);
    forall i | 0 <= i < |p| - 1
      ensures (p[i], p[i + 1]) in Edges(part)
    {
      WayStaysInside(part, p, start, x, i);
      WayStaysInside(part, p, start, x, i + 1);
      assert p[i].cause == p[i + 1] || p[i].context == p[i + 1];
    }
  }

  twostate lemma SameEdges(all: set<Exc>)
    requires forall x | x in all :: x.cause == old(x.cause) && x.context == old(x.context)
    ensures Edges(all) == old(Edges(all))
  {
  }

  /** `_public_reason`: the public exception that stands in place of a private one. */
  method PublicReason(exc: Exc, ghost all: set<Exc>) returns (r: Exc)
    requires Carriers(all) && exc in all
    ensures r.kind == Public && (r in all || (fresh(r) && r.cause == null && r.context == null && !r.suppress))
    ensures exc.kind == Public ==> r == exc
    ensures PublicCause(exc, all) != null ==> r == PublicCause(exc, all)
    ensures PublicCause(exc, all) == null ==> fresh(r)
    decreases exc.rank
  {
    match exc.kind
    case CancelledAfter => r := PublicReason(exc.worker, all);
    case OutcomeUnknown => r := new Exc();
    case ChildCancelled => r := new Exc();
    case Public => r := exc;
  }

  /** `_as_public`: a public exception is handed back as it is; a private one gets a new stand-in. */
  method AsPublic(exc: Exc, ghost all: set<Exc>) returns (public: Exc, ghost more: set<Exc>)
    requires Graph(all) && exc in all
    ensures public.kind == Public && public in all + more && fresh(more) && Graph(all + more)
    ensures exc.kind == Public ==> public == exc && more == {}
    ensures exc.kind != Public ==> public in more && public.context == null
    ensures exc.kind == CancelledAfter || (exc.kind != Public && exc.callerCancelled) ==>
              && public.cause != null && public.cause.kind == Public && public.cause != public
              && (PublicCause(exc, all) == null ==> public.cause !in all && public.cause.cause == null)
              && (PublicCause(exc, all) != null ==> public.cause == PublicCause(exc, all))
    ensures exc.kind != Public && exc.kind != CancelledAfter && !exc.callerCancelled ==> public.cause == null
  {
    more := {};
    if exc.kind == Public {
      public := exc;
    } else if exc.kind == CancelledAfter || exc.callerCancelled {
      var reason := PublicReason(exc, all);
      public := new Exc();
      public.SetLink(Cause, reason);
      more := {public} + if reason in all then {} else {reason};
    } else {
      public := PublicReason(exc, all);
      more := {public};
    }
  }

  /** A cancellation that owes its reason as a cause. */
  predicate CarriesReason(exc: Exc) {
    exc.kind == CancelledAfter || (exc.kind != Public && exc.callerCancelled)
  }

  /**
   `_public_form`: whatever private classification comes in, and however its graph is tied, what is
   handed out is public and so is everything any chain of links leads to from it. A cancellation
   keeps its worker's error as the cause, any other stand-in what the private exception was raised
   from, and every stand-in the public context that was attached to it.
   */
  method PublicForm(exc: Exc, ghost all: set<Exc>)
      returns (public: Exc?, ghost handed: set<Exc>, ghost way: seq<Exc>)
    requires Graph(all) && exc in all
    modifies all
    ensures public != null && public in handed && PublicOnly(handed)
    ensures exc.kind == Public ==> public == exc
    ensures exc.kind != Public ==> fresh(public)
    ensures forall x | x in all :: x.suppress == old(x.suppress)
    ensures CarriesReason(exc) && PublicCause(exc, all) != null ==> public.cause == PublicCause(exc, all)
    ensures exc.kind != Public && !CarriesReason(exc) && old(exc.cause) != null && old(exc.cause).kind == Public ==>
              public.cause == old(exc.cause)
    ensures exc.kind != Public && old(exc.context) != null && old(exc.context).kind == Public ==>
              public.context == old(exc.context)
    ensures CarriesReason(exc) ==> public.cause != null && public.cause.kind == Public
    ensures CarriesReason(exc) && PublicCause(exc, all) == null && old(exc.cause) != null && old(exc.cause).kind == Public ==>
              public.cause.cause == old(exc.cause)
    ensures var reason := PublicCause(exc, all);
            CarriesReason(exc) && reason != null && old(reason.cause) == null &&
            old(exc.cause) != null && old(exc.cause).kind == Public && old(exc.cause) != reason ==>
              || reason.cause == old(exc.cause)
              || (way != [] && way[0] == old(exc.cause) && way[|way| - 1] == reason && Walk(way, old(Edges(all))))
  {
    hide Accounted, Replaces, Way, Walk, Loop, Edges, PublicCause, Carriers;
    ghost var more;
    way := [];
    public, more := AsPublic(exc, all);
    ghost var whole := all + more;
    if public != exc {
      if public.context == null {
        public.SetLink(Context, exc.context);
      }
      ghost var reason := Reason(public);
      way := CarryRaisedFrom(public, exc, whole);
      if exc.cause != null && Way(way, exc.cause, reason) {
        WayWalks(all, way, exc.cause, reason);
        if reason.cause != exc.cause {
          assert forall x | x in all :: x.cause == old(x.cause) && x.context == old(x.context);
          SameEdges(all);
        }
      }
    }
    ghost var after;
    public, handed, after := Scrubbed(public, whole);
  }
}

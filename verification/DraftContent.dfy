/** The content of a draft decides the stack configuration built from it, up to runtime states and names. */
module DraftContent {
  import opened Tables

  function Nameless(entries: seq<AttEntry>): seq<AttEntry> {
    seq(|entries|, i requires 0 <= i < |entries| => entries[i].(name := ""))
  }

  function PlainApp(a: AppEntry): AppEntry {
    a.(runtimeState := Running, variables := Nameless(a.variables), secrets := Nameless(a.secrets),
       configs := Nameless(a.configs), volumes := Nameless(a.volumes))
  }

  /** A configuration without runtime states and without the names of variables, configs and secrets. */
  function Plain(s: Stack): Stack {
    Stack(Running, seq(|s.apps|, i requires 0 <= i < |s.apps| => PlainApp(s.apps[i])))
  }

  ghost predicate SameAttached(x: Db, y: Db, a: Id) {
    && (forall t :: t in x.attachments && x.attachments[t].app == a <==> t in y.attachments && y.attachments[t].app == a)
    && (forall t :: t in x.attachments && x.attachments[t].app == a ==>
          y.attachments[t] == x.attachments[t] &&
          Payload(y, t.0, x.attachments[t].source).1 == Payload(x, t.0, x.attachments[t].source).1 &&
          Payload(y, t.0, x.attachments[t].source).2 == Payload(x, t.0, x.attachments[t].source).2)
  }

  lemma AttachedInContent(x: Db, y: Db, g: Id, a: Id)
    requires ContentOf(x, g) == ContentOf(y, g) && Live(x, g, a) && Live(y, g, a)
    ensures SameAttached(x, y, a)
  {
    var p, q := ContentOf(x, g).attachments, ContentOf(y, g).attachments;
    forall t
      ensures t in x.attachments && x.attachments[t].app == a <==> t in y.attachments && y.attachments[t].app == a
      ensures t in x.attachments && x.attachments[t].app == a ==> t in p && p[t] == q[t]
    {
      if t in x.attachments && x.attachments[t].app == a { assert t in p && t in q; }
      if t in y.attachments && y.attachments[t].app == a { assert t in q && t in p; }
    }
  }

  lemma SameAttEntries(x: Db, y: Db, a: Id, k: Kind)
    requires SameAttached(x, y, a)
    ensures Nameless(AttEntries(x, a, k)) == Nameless(AttEntries(y, a, k))
  {
    hide Payload;
    forall id ensures id in AttachmentsOf(x, a, k) <==> id in AttachmentsOf(y, a, k) {
      assert id in AttachmentsOf(x, a, k) <==> (k, id) in x.attachments && x.attachments[(k, id)].app == a by {
        if id in AttachmentsOf(x, a, k) {
          var t :| t in x.attachments && t.0 == k && x.attachments[t].app == a && t.1 == id;
          assert t == (k, id);
        }
      }
      assert id in AttachmentsOf(y, a, k) <==> (k, id) in y.attachments && y.attachments[(k, id)].app == a by {
        if id in AttachmentsOf(y, a, k) {
          var t :| t in y.attachments && t.0 == k && y.attachments[t].app == a && t.1 == id;
          assert t == (k, id);
        }
      }
    }
    assert AttachmentsOf(x, a, k) == AttachmentsOf(y, a, k);
    var ids := Ordered(AttachmentsOf(x, a, k));
    var xs, ys := AttEntries(x, a, k), AttEntries(y, a, k);
    forall i | 0 <= i < |ids| ensures xs[i].(name := "") == ys[i].(name := "") {
      assert ids[i] in ids;
      assert (k, ids[i]) in x.attachments && x.attachments[(k, ids[i])].app == a;
    }
  }

  ghost predicate SameServed(x: Db, y: Db, a: Id) {
    && (forall e :: e in x.endpoints && x.endpoints[e].app == a <==> e in y.endpoints && y.endpoints[e].app == a)
    && (forall e :: e in x.endpoints && x.endpoints[e].app == a ==>
          y.endpoints[e] == x.endpoints[e] && DomainsOf(y, e) == DomainsOf(x, e))
  }

  lemma ServedInContent(x: Db, y: Db, g: Id, a: Id)
    requires ContentOf(x, g) == ContentOf(y, g) && Live(x, g, a) && Live(y, g, a)
    ensures SameServed(x, y, a)
  {
    var p, q := ContentOf(x, g).endpoints, ContentOf(y, g).endpoints;
    forall e
      ensures e in x.endpoints && x.endpoints[e].app == a <==> e in y.endpoints && y.endpoints[e].app == a
      ensures e in x.endpoints && x.endpoints[e].app == a ==> y.endpoints[e] == x.endpoints[e]
    {
      if e in x.endpoints && x.endpoints[e].app == a { assert e in p && e in q; }
      if e in y.endpoints && y.endpoints[e].app == a { assert e in q && e in p; }
    }
    forall e | e in x.endpoints && x.endpoints[e].app == a ensures DomainsOf(y, e) == DomainsOf(x, e) {
      DomainsInContent(x, y, g, e);
    }
  }

  lemma DomainsInContent(x: Db, y: Db, g: Id, e: Id)
    requires ContentOf(x, g) == ContentOf(y, g)
    requires e in x.endpoints && e in y.endpoints && Live(x, g, x.endpoints[e].app) && Live(y, g, y.endpoints[e].app)
    ensures DomainsOf(y, e) == DomainsOf(x, e)
  {
    var p, q := ContentOf(x, g).domains, ContentOf(y, g).domains;
    forall d ensures d in DomainsOf(x, e) <==> d in DomainsOf(y, e) {
      if d in DomainsOf(x, e) { assert d in p && p[d] == e && d in q && q[d] == e; }
      if d in DomainsOf(y, e) { assert d in q && q[d] == e && d in p && p[d] == e; }
    }
  }

  lemma SameEndpointEntries(x: Db, y: Db, a: Id)
    requires SameServed(x, y, a)
    ensures EndpointEntries(x, a) == EndpointEntries(y, a)
  {
    assert EndpointsOf(x, a) == EndpointsOf(y, a);
    var ids := Ordered(EndpointsOf(x, a));
    forall i | 0 <= i < |ids| ensures EndpointEntries(x, a)[i] == EndpointEntries(y, a)[i] {
      assert ids[i] in ids;
    }
  }

  lemma SameAppEntry(x: Db, y: Db, g: Id, a: Id)
    requires ContentOf(x, g) == ContentOf(y, g) && Live(x, g, a) && Live(y, g, a)
    ensures PlainApp(AppEntryOf(x, a)) == PlainApp(AppEntryOf(y, a))
  {
    AttachedInContent(x, y, g, a);
    ServedInContent(x, y, g, a);
    assert ContentOf(x, g).apps[a] == ContentOf(y, g).apps[a];
    SameEntryParts(x, y, a);
  }

  lemma SameEntryParts(x: Db, y: Db, a: Id)
    requires a in x.apps && a in y.apps && TextOnly(x.apps[a].spec) == TextOnly(y.apps[a].spec)
    requires SameAttached(x, y, a) && SameServed(x, y, a)
    ensures PlainApp(AppEntryOf(x, a)) == PlainApp(AppEntryOf(y, a))
  {
    SameAttEntries(x, y, a, Variable);
    SameAttEntries(x, y, a, Secret);
    SameAttEntries(x, y, a, Config);
    SameAttEntries(x, y, a, Volume);
    SameEndpointEntries(x, y, a);
  }

  /** Two states in which a group has the same content give the same plain configuration. */
  lemma SameContentSameStack(x: Db, y: Db, g: Id)
    requires g in x.groups && g in y.groups && ContentOf(x, g) == ContentOf(y, g)
    ensures Plain(BuildStack(x, g)) == Plain(BuildStack(y, g))
  {
    forall a ensures a in LiveApps(x, g) <==> a in LiveApps(y, g) {
      assert a in LiveApps(x, g) <==> a in ContentOf(x, g).apps;
      assert a in LiveApps(y, g) <==> a in ContentOf(y, g).apps;
    }
    assert LiveApps(x, g) == LiveApps(y, g);
    var ids := Ordered(LiveApps(x, g));
    forall i | 0 <= i < |ids|
      ensures PlainApp(BuildStack(x, g).apps[i]) == PlainApp(BuildStack(y, g).apps[i])
    {
      assert ids[i] in ids;
      SameAppEntry(x, y, g, ids[i]);
    }
  }
}

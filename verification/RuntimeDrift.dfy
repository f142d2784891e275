/** Comparing the services that should run with those that do. */
module RuntimeDrift {
  import opened Prelude

  datatype Service = Service(name: string, image: string, desiredReplicas: int)

  datatype Status = InSync | Drifted | Unknown

  predicate Hex(c: char) {
    '0' <= c <= '9' || 'a' <= c <= 'f' || 'A' <= c <= 'F'
  }

  function WithoutHexTail(s: string): string {
    if s != "" && Hex(s[|s| - 1]) then WithoutHexTail(s[..|s| - 1]) else s
  }

  /** "@sha256:" in upper or lower case. */
  predicate EndsWithMarker(s: string) {
    var n := |s|;
    n >= 8 && s[n - 8] == '@' && s[n - 7] in {'s', 'S'} && s[n - 6] in {'h', 'H'} && s[n - 5] in {'a', 'A'} &&
    s[n - 4..] == "256:"
  }

  /** The image without a digest at its end. */
  function NormalizeImage(s: string): string {
    var head := WithoutHexTail(s);
    if |head| < |s| && EndsWithMarker(head) then head[..|head| - 8] else s
  }

  predicate SameService(a: Service, b: Service) {
    a.name == b.name && NormalizeImage(a.image) == NormalizeImage(b.image) && a.desiredReplicas == b.desiredReplicas
  }

  /** Of services with one name the last counts. */
  function ByName(observed: seq<Service>): map<string, Service> {
    if observed == [] then map[] else
      var last := observed[|observed| - 1];
      ByName(observed[..|observed| - 1])[last.name := last]
  }

  function Names(services: seq<Service>): set<string> {
    set s | s in services :: s.name
  }

  predicate Distinct(services: seq<Service>) {
    forall i, j | 0 <= i < j < |services| :: services[i].name != services[j].name
  }

  predicate Compared(expected: seq<Service>, observed: seq<Service>) {
    |expected| == |observed| &&
    forall e | e in expected :: e.name in ByName(observed) && SameService(e, ByName(observed)[e.name])
  }

  method DeriveStatus(expected: seq<Service>, observed: Option<seq<Service>>) returns (status: Status)
    ensures status == Unknown <==> observed.None?
    ensures observed.Some? ==> (status == InSync <==> Compared(expected, observed.value))
  {
    if observed.None? { return Unknown; }
    if |expected| != |observed.value| { return Drifted; }
    var byName := ByName(observed.value);
    for i := 0 to |expected|
      invariant forall e | e in expected[..i] :: e.name in byName && SameService(e, byName[e.name])
    {
      var e := expected[i];
      assert e in expected;
      if e.name !in byName { return Drifted; }
      if !SameService(e, byName[e.name]) { return Drifted; }
      assert expected[..i + 1] == expected[..i] + [e];
    }
    assert expected[..|expected|] == expected;
    status := InSync;
  }

  lemma {:induction false} ByNameFacts(observed: seq<Service>)
    ensures forall n | n in ByName(observed) :: ByName(observed)[n] in observed && ByName(observed)[n].name == n
    ensures forall o | o in observed :: o.name in ByName(observed)
    ensures Distinct(observed) ==> forall o | o in observed :: ByName(observed)[o.name] == o
  {
    if observed != [] {
      var init, last := observed[..|observed| - 1], observed[|observed| - 1];
      ByNameFacts(init);
      assert observed == init + [last];
      if Distinct(observed) {
        forall o | o in init ensures o.name != last.name {
          var i :| 0 <= i < |init| && init[i] == o;
          assert observed[i] == o;
        }
      }
    }
  }

  lemma DistinctLonger(init: seq<Service>, last: Service)
    ensures Distinct(init + [last]) <==> Distinct(init) && last.name !in Names(init)
    ensures Names(init + [last]) == Names(init) + {last.name}
  {
    var services := init + [last];
    if Distinct(services) {
      forall i, j | 0 <= i < j < |init| ensures init[i].name != init[j].name {
        assert services[i] == init[i] && services[j] == init[j];
      }
      forall i | 0 <= i < |init| ensures init[i].name != last.name {
        assert services[i] == init[i] && services[|init|] == last;
      }
    }
    if Distinct(init) && last.name !in Names(init) {
      forall i, j | 0 <= i < j < |services| ensures services[i].name != services[j].name {
        assert services[i] in init;
      }
    }
  }

  /** A list with a repeated name has fewer names than entries. */
  lemma {:induction false} DistinctNames(services: seq<Service>)
    ensures |Names(services)| <= |services|
    ensures Distinct(services) <==> |Names(services)| == |services|
  {
    if services == [] {
      assert Names(services) == {};
    } else {
      hide Distinct, Names;
      var init, last := services[..|services| - 1], services[|services| - 1];
      DistinctNames(init);
      assert services == init + [last];
      DistinctLonger(init, last);
    }
  }

  lemma SubsetOfSameSize<T>(a: set<T>, b: set<T>)
    requires a <= b && |a| == |b|
    ensures a == b
  {
    if a != b {
      var x :| x in b && x !in a;
      SmallerInside(a, b - {x});
    }
  }

  lemma {:induction false} SmallerInside<T>(a: set<T>, b: set<T>)
    requires a <= b
    ensures |a| <= |b|
    decreases a
  {
    if a != {} {
      var x :| x in a;
      SmallerInside(a - {x}, b - {x});
    }
  }

  /** Every service of one side is matched on the other. */
  predicate Matched(expected: seq<Service>, observed: seq<Service>) {
    AllRun(expected, observed) && NothingElse(expected, observed)
  }

  predicate AllRun(expected: seq<Service>, observed: seq<Service>) {
    forall e | e in expected :: exists o | o in observed :: SameService(e, o)
  }

  predicate NothingElse(expected: seq<Service>, observed: seq<Service>) {
    forall o | o in observed :: exists e | e in expected :: SameService(e, o)
  }

  lemma ComparedNames(expected: seq<Service>, observed: seq<Service>)
    requires Distinct(expected) && Compared(expected, observed)
    ensures Names(expected) == Names(observed) && Distinct(observed)
  {
    hide NormalizeImage, Distinct;
    ByNameFacts(observed);
    DistinctNames(expected);
    DistinctNames(observed);
    forall e | e in expected ensures e.name in Names(observed) {
      assert ByName(observed)[e.name] in observed;
    }
    assert Names(expected) <= Names(observed);
    SmallerInside(Names(expected), Names(observed));
    SubsetOfSameSize(Names(expected), Names(observed));
  }

  lemma ComparedIsMatched(expected: seq<Service>, observed: seq<Service>)
    requires Distinct(expected) && Compared(expected, observed)
    ensures Matched(expected, observed) && Distinct(observed)
  {
    hide NormalizeImage, Distinct;
    ByNameFacts(observed);
    ComparedNames(expected, observed);
    forall e | e in expected ensures exists o | o in observed :: SameService(e, o) {
      assert ByName(observed)[e.name] in observed;
    }
    forall o | o in observed ensures exists e | e in expected :: SameService(e, o) {
      assert o.name in Names(observed);
      var e :| e in expected && e.name == o.name;
      assert SameService(e, ByName(observed)[e.name]);
    }
  }

  lemma NamesAllRun(expected: seq<Service>, observed: seq<Service>)
    requires AllRun(expected, observed)
    ensures Names(expected) <= Names(observed)
  {
    forall e | e in expected ensures e.name in Names(observed) {
      var o :| o in observed && SameService(e, o);
    }
  }

  lemma NoOtherNames(expected: seq<Service>, observed: seq<Service>)
    requires NothingElse(expected, observed)
    ensures Names(observed) <= Names(expected)
  {
    forall o | o in observed ensures o.name in Names(expected) {
      var e :| e in expected && SameService(e, o);
    }
  }

  lemma MatchedNames(expected: seq<Service>, observed: seq<Service>)
    requires Matched(expected, observed)
    ensures Names(expected) == Names(observed)
  {
    hide AllRun, NothingElse, Names;
    NamesAllRun(expected, observed);
    NoOtherNames(expected, observed);
  }

  lemma MatchedIsCompared(expected: seq<Service>, observed: seq<Service>)
    requires Distinct(expected) && Distinct(observed) && Matched(expected, observed)
    ensures Compared(expected, observed)
  {
    hide NormalizeImage, Distinct, NothingElse;
    ByNameFacts(observed);
    DistinctNames(expected);
    DistinctNames(observed);
    MatchedNames(expected, observed);
    forall e | e in expected ensures e.name in ByName(observed) && SameService(e, ByName(observed)[e.name]) {
      var o :| o in observed && SameService(e, o);
      assert ByName(observed)[o.name] == o;
    }
  }

  /** If each service is expected once, the comparison passes exactly if every expected service runs
      as it should, nothing else runs, and nothing is reported twice. */
  lemma InSyncMeansTheSameServices(expected: seq<Service>, observed: seq<Service>)
    requires Distinct(expected)
    ensures Compared(expected, observed) <==> Matched(expected, observed) && Distinct(observed)
  {
    hide Compared, Matched, Distinct;
    if Compared(expected, observed) { ComparedIsMatched(expected, observed); }
    if Matched(expected, observed) && Distinct(observed) { MatchedIsCompared(expected, observed); }
  }

  /** A comparison that passes is right exactly if each service is expected once, and lists that do
      agree pass exactly then. */
  lemma RightExactlyIfExpectedOnce(expected: seq<Service>, observed: seq<Service>)
    ensures Compared(expected, observed) ==> (Matched(expected, observed) && Distinct(observed) <==> Distinct(expected))
    ensures Matched(expected, observed) && Distinct(observed) ==> (Compared(expected, observed) <==> Distinct(expected))
  {
    hide Matched, Distinct, NormalizeImage;
    if Distinct(expected) {
      InSyncMeansTheSameServices(expected, observed);
    }
    if Matched(expected, observed) && Distinct(observed) {
      MatchedNames(expected, observed);
      DistinctNames(expected);
      DistinctNames(observed);
    }
  }

  /** With a name twice among the expected, a service that should not run goes unnoticed. */
  lemma DuplicateHidesDrift()
    ensures var web, old_ := Service("web", "nginx", 1), Service("old", "nginx", 1);
      Compared([web, web], [web, old_]) && !exists e | e in [web, web] :: SameService(e, old_)
  {
    var web, old_ := Service("web", "nginx", 1), Service("old", "nginx", 1);
    var observed := [web, old_];
    assert observed[..1] == [web] && [web][..0] == [];
    assert ByName([web]) == map["web" := web];
    assert ByName(observed) == map["web" := web, "old" := old_];
    assert web.name != old_.name by { assert web.name[0] != old_.name[0]; }
  }

  lemma {:induction false} HexTailGoes(s: string, digest: string)
    requires forall c | c in digest :: Hex(c)
    ensures WithoutHexTail(s + digest) == WithoutHexTail(s)
  {
    if digest == "" {
      assert s + digest == s;
    } else {
      var init := digest[..|digest| - 1];
      HexTailGoes(s, init);
      assert (s + digest)[..|s + digest| - 1] == s + init;
      assert digest[|digest| - 1] in digest;
    }
  }

  /** A digest makes no difference. */
  lemma DigestIsIgnored(image: string, digest: string)
    requires digest != "" && forall c | c in digest :: Hex(c)
    ensures NormalizeImage(image + "@sha256:" + digest) == image
  {
    var marked := image + "@sha256:";
    HexTailGoes(marked, digest);
    assert marked[|marked| - 4..] == "256:";
    assert marked[..|marked| - 8] == image;
  }
}

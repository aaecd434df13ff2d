/** Which tools an attendee gets: the smallest profile that covers its request, and of that
    only what the sandbox's own capability file allows. */
module Profiles {
  import opened Wrappers
  import opened Text
  import opened State
  import Sse

  type Tool = string

  datatype Profile = Profile(name: string, tools: set<Tool>)

  datatype Drift = Unknown(tools: set<Tool>) | Uncovered(closest: Profile, missing: set<Tool>)

  /** The provisioned profiles, the one for an empty request, and all tools there are. */
  datatype Catalogue = Catalogue(profiles: seq<Profile>, baseline: Profile, known: set<Tool>)

  function Wanted(requested: seq<Tool>): set<Tool> {
    set t | t in requested && t != ""
  }

  function FirstCover(profiles: seq<Profile>, wanted: set<Tool>): Option<Profile> {
    if profiles == [] then None
    else if wanted <= profiles[0].tools then Some(profiles[0])
    else FirstCover(profiles[1..], wanted)
  }

  /** The profile sharing most with the request; the first of several. */
  function Closest(profiles: seq<Profile>, wanted: set<Tool>): Profile
    requires profiles != []
  {
    if |profiles| == 1 then profiles[0]
    else
      var rest := Closest(profiles[1..], wanted);
      if |wanted * profiles[0].tools| >= |wanted * rest.tools| then profiles[0] else rest
  }

  function Resolve(c: Catalogue, requested: seq<Tool>): Result<Profile, Drift>
    requires c.profiles != []
  {
    var wanted := Wanted(requested);
    if wanted == {} then Ok(c.baseline)
    else if wanted - c.known != {} then Err(Unknown(wanted - c.known))
    else match FirstCover(c.profiles, wanted)
         case Some(p) => Ok(p)
         case None =>
           var closest := Closest(c.profiles, wanted);
           Err(Uncovered(closest, wanted - closest.tools))
  }

  predicate Covers(p: Profile, wanted: set<Tool>) {
    wanted <= p.tools
  }

  predicate SortedBySize(profiles: seq<Profile>) {
    forall i, j :: 0 <= i < j < |profiles| ==> |profiles[i].tools| <= |profiles[j].tools|
  }

  lemma {:induction false} FirstCoverIs(profiles: seq<Profile>, wanted: set<Tool>)
    ensures FirstCover(profiles, wanted).None? <==> forall p :: p in profiles ==> !Covers(p, wanted)
    ensures FirstCover(profiles, wanted).Some? ==>
              exists i :: 0 <= i < |profiles| && profiles[i] == FirstCover(profiles, wanted).value && Covers(profiles[i], wanted)
                          && forall j :: 0 <= j < i ==> !Covers(profiles[j], wanted)
  {
    if profiles != [] {
      FirstCoverIs(profiles[1..], wanted);
      if Covers(profiles[0], wanted) {
        assert profiles[0] in profiles;
      } else if FirstCover(profiles[1..], wanted).Some? {
        var i :| 0 <= i < |profiles[1..]| && profiles[1..][i] == FirstCover(profiles[1..], wanted).value
                 && Covers(profiles[1..][i], wanted) && forall j :: 0 <= j < i ==> !Covers(profiles[1..][j], wanted);
        assert profiles[i + 1] == profiles[1..][i];
        forall j | 0 <= j < i + 1 ensures !Covers(profiles[j], wanted) {
          assert j > 0 ==> profiles[j] == profiles[1..][j - 1];
        }
      }
    }
  }

  /** The profile at i shares most with the request, and is the first to share so much. */
  predicate MostShared(profiles: seq<Profile>, wanted: set<Tool>, i: nat)
    requires i < |profiles|
  {
    && (forall j :: 0 <= j < |profiles| ==> |wanted * profiles[j].tools| <= |wanted * profiles[i].tools|)
    && (forall j :: 0 <= j < i ==> |wanted * profiles[j].tools| < |wanted * profiles[i].tools|)
  }

  lemma {:induction false} ClosestSharesMost(profiles: seq<Profile>, wanted: set<Tool>) returns (i: nat)
    requires profiles != []
    ensures i < |profiles| && Closest(profiles, wanted) == profiles[i] && MostShared(profiles, wanted, i)
  {
    i := 0;
    if |profiles| > 1 {
      var k := ClosestSharesMost(profiles[1..], wanted);
      assert forall j :: 1 <= j < |profiles| ==> profiles[1..][j - 1] == profiles[j];
      if |wanted * profiles[0].tools| < |wanted * profiles[k + 1].tools| {
        i := k + 1;
      }
    }
  }

  /** Resolution fails exactly for an unknown tool or a request that no profile covers. */
  lemma ResolveFailsExactly(c: Catalogue, requested: seq<Tool>)
    requires c.profiles != []
    ensures var wanted := Wanted(requested);
            && (Resolve(c, requested).Err? <==>
                  wanted != {} && (!(wanted <= c.known) || forall p :: p in c.profiles ==> !Covers(p, wanted)))
            && (Resolve(c, requested).Err? && wanted <= c.known ==>
                  var drift := Resolve(c, requested).error;
                  && drift.Uncovered? && drift.missing == wanted - drift.closest.tools && drift.missing != {}
                  && exists i :: 0 <= i < |c.profiles| && c.profiles[i] == drift.closest && MostShared(c.profiles, wanted, i))
            && (Resolve(c, requested).Err? && !(wanted <= c.known) ==>
                  Resolve(c, requested).error == Unknown(wanted - c.known))
            && (forall t :: t in wanted <==> t in requested && t != "")
  {
    var wanted := Wanted(requested);
    FirstCoverIs(c.profiles, wanted);
    var i := ClosestSharesMost(c.profiles, wanted);
    if !(wanted <= c.known) {
      var t :| t in wanted && t !in c.known;
      assert t in wanted - c.known;
    }
    if Resolve(c, requested).Err? && wanted <= c.known {
      assert wanted - c.known == {};
      assert !Covers(Closest(c.profiles, wanted), wanted);
    }
  }

  /** With profiles in order of size, the one resolved covers the request and no covering
      profile is smaller; an empty request gets the baseline. */
  lemma ResolveIsSmallest(c: Catalogue, requested: seq<Tool>)
    requires c.profiles != [] && SortedBySize(c.profiles) && Resolve(c, requested).Ok?
    ensures var wanted, p := Wanted(requested), Resolve(c, requested).value;
            && Covers(p, wanted)
            && (wanted == {} ==> p == c.baseline)
            && (wanted != {} ==> p in c.profiles && forall q :: q in c.profiles && Covers(q, wanted) ==> |p.tools| <= |q.tools|)
  {
    var wanted, p := Wanted(requested), Resolve(c, requested).value;
    FirstCoverIs(c.profiles, wanted);
    if wanted != {} {
      var i :| 0 <= i < |c.profiles| && c.profiles[i] == p && Covers(c.profiles[i], wanted)
               && forall j :: 0 <= j < i ==> !Covers(c.profiles[j], wanted);
      forall q | q in c.profiles && Covers(q, wanted) ensures |p.tools| <= |q.tools| {
        var j :| 0 <= j < |c.profiles| && c.profiles[j] == q;
        assert i <= j;
      }
    }
  }

  /** The order matters: a larger profile listed first is chosen although a smaller one covers. */
  lemma OrderMatters(small: Profile, large: Profile, tool: Tool, baseline: Profile)
    requires tool in small.tools && small.tools < large.tools && tool != ""
    ensures Resolve(Catalogue([large, small], baseline, large.tools), [tool]) == Ok(large)
  {
    var wanted := Wanted([tool]);
    assert wanted == {tool};
    assert wanted - large.tools == {};
  }

  // Meeting start

  datatype Role = Role(id: Id, tools: seq<Tool>)

  predicate DistinctIds(roles: seq<Role>) {
    forall i, j :: 0 <= i < j < |roles| ==> roles[i].id != roles[j].id
  }

  function Refused(c: Catalogue, roles: seq<Role>): seq<Id>
    requires c.profiles != []
  {
    if roles == [] then []
    else Refused(c, roles[..|roles| - 1])
         + (if Resolve(c, roles[|roles| - 1].tools).Err? then [roles[|roles| - 1].id] else [])
  }

  /** The profiles by name, of those that resolve. */
  function Names(c: Catalogue, roles: seq<Role>): map<Id, string>
    requires c.profiles != []
  {
    if roles == [] then map[]
    else
      var names, last := Names(c, roles[..|roles| - 1]), roles[|roles| - 1];
      match Resolve(c, last.tools)
      case Ok(p) => names[last.id := p.name]
      case Err(_) => names
  }

  /** A meeting starts only if nobody's request drifted. */
  function Validate(c: Catalogue, roles: seq<Role>): Result<map<Id, string>, seq<Id>>
    requires c.profiles != []
  {
    if Refused(c, roles) == [] then Ok(Names(c, roles)) else Err(Refused(c, roles))
  }

  ghost predicate Drifted(c: Catalogue, roles: seq<Role>, x: Id)
    requires c.profiles != []
  {
    exists i :: 0 <= i < |roles| && roles[i].id == x && Resolve(c, roles[i].tools).Err?
  }

  lemma DriftedOneMore(c: Catalogue, roles: seq<Role>, last: Role, x: Id)
    requires c.profiles != []
    ensures Drifted(c, roles + [last], x) <==> Drifted(c, roles, x) || (last.id == x && Resolve(c, last.tools).Err?)
  {
    var more := roles + [last];
    assert more[|roles|] == last;
    if Drifted(c, roles, x) {
      var i :| 0 <= i < |roles| && roles[i].id == x && Resolve(c, roles[i].tools).Err?;
      assert more[i].id == x;
    }
    if Drifted(c, more, x) {
      var i :| 0 <= i < |more| && more[i].id == x && Resolve(c, more[i].tools).Err?;
      assert i < |roles| ==> roles[i] == more[i];
    }
  }

  lemma {:induction false} RefusedExactly(c: Catalogue, roles: seq<Role>)
    requires c.profiles != []
    ensures Refused(c, roles) == [] <==> forall i :: 0 <= i < |roles| ==> Resolve(c, roles[i].tools).Ok?
    ensures forall x :: x in Refused(c, roles) <==> Drifted(c, roles, x)
  {
    if roles != [] {
      var n := |roles| - 1;
      RefusedExactly(c, roles[..n]);
      assert roles == roles[..n] + [roles[n]];
      forall x ensures x in Refused(c, roles) <==> Drifted(c, roles, x) {
        DriftedOneMore(c, roles[..n], roles[n], x);
      }
    }
  }

  lemma {:induction false} NamesEach(c: Catalogue, roles: seq<Role>, i: nat)
    requires c.profiles != [] && DistinctIds(roles) && i < |roles| && Resolve(c, roles[i].tools).Ok?
    ensures roles[i].id in Names(c, roles) && Names(c, roles)[roles[i].id] == Resolve(c, roles[i].tools).value.name
  {
    var n := |roles| - 1;
    if i < n {
      assert roles[..n][i] == roles[i];
      NamesEach(c, roles[..n], i);
    }
  }

  /** Every attendee's profile by name, or everyone whose request drifted. */
  method ValidateAttendeeProfiles(c: Catalogue, roles: seq<Role>) returns (r: Result<map<Id, string>, seq<Id>>)
    requires c.profiles != [] && DistinctIds(roles)
    ensures r == Validate(c, roles)
    ensures r.Ok? <==> forall i :: 0 <= i < |roles| ==> Resolve(c, roles[i].tools).Ok?
    ensures r.Ok? ==> forall i :: 0 <= i < |roles| ==> roles[i].id in r.value
                                                       && r.value[roles[i].id] == Resolve(c, roles[i].tools).value.name
    ensures r.Err? ==> forall x :: x in r.error <==> Drifted(c, roles, x)
  {
    var resolved: map<Id, string> := map[];
    var problems := [];
    for i := 0 to |roles|
      invariant problems == Refused(c, roles[..i]) && resolved == Names(c, roles[..i])
    {
      assert roles[..i + 1][..i] == roles[..i];
      match Resolve(c, roles[i].tools) {
        case Ok(p) => resolved := resolved[roles[i].id := p.name];
        case Err(_) => problems := problems + [roles[i].id];
      }
    }
    assert roles[..|roles|] == roles;
    RefusedExactly(c, roles);
    forall i | 0 <= i < |roles| && Resolve(c, roles[i].tools).Ok?
      ensures roles[i].id in resolved && resolved[roles[i].id] == Resolve(c, roles[i].tools).value.name
    {
      NamesEach(c, roles, i);
    }
    r := if problems == [] then Ok(resolved) else Err(problems);
  }

  // Inside the sandbox

  /** The tools a capability file lists; without a file, the baseline. */
  function AllowedTools(file: Option<string>, baseline: set<Tool>): set<Tool> {
    match file
    case None => baseline
    case Some(text) => set line | line in Sse.Lines(text) && Strip(line) != "" && Strip(line)[0] != '#' :: Strip(line)
  }

  predicate Before(a: string, b: string) {
    a == "" || (b != "" && (a[0] < b[0] || (a[0] == b[0] && Before(a[1..], b[1..]))))
  }

  function Insert(x: string, xs: seq<string>): seq<string> {
    if xs == [] || Before(x, xs[0]) then [x] + xs else [xs[0]] + Insert(x, xs[1..])
  }

  function Sorted(xs: seq<string>): seq<string> {
    if xs == [] then [] else Insert(xs[0], Sorted(xs[1..]))
  }

  function Kept(requested: seq<Tool>, allowed: set<Tool>): seq<Tool> {
    if requested == [] then []
    else (if requested[0] in allowed then [requested[0]] else []) + Kept(requested[1..], allowed)
  }

  /** The granted tools in use here, in order. */
  function ActiveTools(requested: seq<Tool>, allowed: set<Tool>): seq<Tool> {
    Sorted(Kept(requested, allowed))
  }

  lemma {:induction false} BeforeTotal(a: string, b: string)
    ensures Before(a, b) || Before(b, a)
  {
    if a != "" && b != "" && a[0] == b[0] {
      BeforeTotal(a[1..], b[1..]);
    }
  }

  lemma {:induction false} BeforeTransitive(a: string, b: string, c: string)
    requires Before(a, b) && Before(b, c)
    ensures Before(a, c)
  {
    if a != "" && a[0] == b[0] && b[0] == c[0] {
      BeforeTransitive(a[1..], b[1..], c[1..]);
    }
  }

  predicate InOrder(xs: seq<string>) {
    forall i, j :: 0 <= i < j < |xs| ==> Before(xs[i], xs[j])
  }

  lemma {:induction false} InsertKeeps(x: string, xs: seq<string>)
    requires InOrder(xs)
    ensures InOrder(Insert(x, xs)) && multiset(Insert(x, xs)) == multiset{x} + multiset(xs)
  {
    if xs == [] {
    } else if Before(x, xs[0]) {
      forall j | 0 <= j < |xs| ensures Before(x, xs[j]) {
        if j > 0 {
          BeforeTransitive(x, xs[0], xs[j]);
        }
      }
    } else {
      InsertKeeps(x, xs[1..]);
      BeforeTotal(x, xs[0]);
      var rest := Insert(x, xs[1..]);
      assert xs == [xs[0]] + xs[1..];
      forall j | 0 <= j < |rest| ensures Before(xs[0], rest[j]) {
        assert rest[j] in multiset(rest);
        if rest[j] != x {
          assert rest[j] in xs[1..];
        }
      }
    }
  }

  lemma {:induction false} SortedSorts(xs: seq<string>)
    ensures InOrder(Sorted(xs)) && multiset(Sorted(xs)) == multiset(xs)
  {
    if xs != [] {
      SortedSorts(xs[1..]);
      InsertKeeps(xs[0], Sorted(xs[1..]));
      assert xs == [xs[0]] + xs[1..];
    }
  }

  lemma {:induction false} KeptIs(requested: seq<Tool>, allowed: set<Tool>)
    ensures forall t :: t in Kept(requested, allowed) <==> t in requested && t in allowed
  {
    if requested != [] {
      KeptIs(requested[1..], allowed);
    }
  }

  /** Whatever is requested, exactly the requested tools that the sandbox's own file allows
      become active, in order; nothing else can be granted, and without a file nothing beyond
      the baseline. */
  lemma GrantIsIntersection(requested: seq<Tool>, file: Option<string>, baseline: set<Tool>)
    ensures var active, allowed := ActiveTools(requested, AllowedTools(file, baseline)), AllowedTools(file, baseline);
            && (forall t :: t in active <==> t in requested && t in allowed)
            && InOrder(active)
            && (file.None? ==> forall t :: t in active ==> t in baseline)
  {
    var allowed := AllowedTools(file, baseline);
    KeptIs(requested, allowed);
    SortedSorts(Kept(requested, allowed));
    forall t ensures t in ActiveTools(requested, allowed) <==> t in Kept(requested, allowed) {
      assert t in ActiveTools(requested, allowed) <==> t in multiset(Sorted(Kept(requested, allowed)));
    }
  }

  /** A capability file of the given lines. */
  function Written(lines: seq<string>): string {
    if lines == [] then "" else lines[0] + ("\n" + Written(lines[1..]))
  }

  lemma {:induction false} WrittenLines(lines: seq<string>)
    requires forall l :: l in lines ==> Sse.Unbroken(l)
    ensures Sse.Lines(Written(lines)) == lines
  {
    if lines != [] {
      assert lines[0] in lines;
      WrittenLines(lines[1..]);
      Sse.LineThenRest(lines[0], Written(lines[1..]));
      assert [lines[0]] + lines[1..] == lines;
    }
  }

  /** A file allows exactly the tools that stand on a line of their own, whatever space is
      around them; blank lines and comments allow nothing. */
  lemma FileAllowsExactly(lines: seq<string>, baseline: set<Tool>, t: Tool)
    requires forall l :: l in lines ==> Sse.Unbroken(l)
    ensures t in AllowedTools(Some(Written(lines)), baseline)
            <==> t != "" && t[0] != '#' && exists l :: l in lines && Strip(l) == t
  {
    WrittenLines(lines);
  }

  /** Once the meeting's attendees are validated, every node's own resolution succeeds, and with
      the profile recorded for it; what its sandbox then makes active is what that profile and
      the sandbox's capability file share, which includes everything the persona asked for
      that the file allows. */
  lemma ValidatedNodesResolve(c: Catalogue, roles: seq<Role>, names: map<Id, string>, i: nat, granted: seq<Tool>,
                              file: Option<string>, baseline: set<Tool>)
    requires c.profiles != [] && SortedBySize(c.profiles) && DistinctIds(roles) && i < |roles|
    requires Validate(c, roles) == Ok(names)
    ensures Resolve(c, roles[i].tools).Ok?
    ensures roles[i].id in names && names[roles[i].id] == Resolve(c, roles[i].tools).value.name
    ensures var profile := Resolve(c, roles[i].tools).value;
            var allowed := AllowedTools(file, baseline);
            (forall t :: t in granted <==> t in profile.tools) ==>
              && (forall t :: t in ActiveTools(granted, allowed) <==> t in profile.tools && t in allowed)
              && (forall t :: t in roles[i].tools && t != "" && t in allowed ==> t in ActiveTools(granted, allowed))
  {
    RefusedExactly(c, roles);
    NamesEach(c, roles, i);
    GrantIsIntersection(granted, file, baseline);
    ResolveIsSmallest(c, roles[i].tools);
    assert forall t :: t in roles[i].tools && t != "" ==> t in Wanted(roles[i].tools);
  }
}

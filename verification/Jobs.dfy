/** The Kubernetes Jobs of an emulator host: who answers for which Job, whatever kubectl does. */
module Jobs {
  import opened Prelude
  import opened SessionItem

  type Token = string

  /** The unique part of `cwe-<session>-<salt>-<index>`. */
  datatype JobName = JobName(session: string, salt: nat, index: nat)

  /** A Job and the token in the Secret it owns; the Secret goes when the Job goes. */
  datatype Job = Job(image: string, token: Option<Token>)

  /** A client of the Pod of one Job. */
  datatype Device = Device(job: JobName, token: Token)

  datatype Profile = Profile(image: string, images: seq<string>, count: nat, jobTimeout: int)

  datatype HostRecord = HostRecord(session: string, jobs: seq<JobName>, tokens: seq<Token>)

  /** What start draws and meets for one image. A Job whose creation fails does not exist. */
  datatype Try = Try(salt: nat, token: Token, created: bool, secret: Net)

  datatype Boot = NoPod | NotBooted | Booted

  /** Looking up a recorded Job's Pod: kubectl failed, no running Pod, Pod does not answer, Pod answers. */
  datatype Look = Failed | Gone | Silent | Found

  function Images(p: Profile): seq<string> {
    if p.images != [] then p.images else seq(p.count, i => p.image)
  }

  predicate ValidProfile(p: Profile) {
    (p.images != [] ==> |p.images| == p.count) && p.jobTimeout > 0
  }

  predicate Acceptable(r: HostRecord) {
    ValidSid(r.session) && r.jobs != [] && |r.jobs| == |r.tokens|
  }

  function Pairs(jobs: seq<JobName>, tokens: seq<Token>): (ds: seq<Device>)
    requires |jobs| == |tokens|
    ensures |ds| == |jobs| && forall i :: 0 <= i < |ds| ==> ds[i] == Device(jobs[i], tokens[i])
  {
    seq(|jobs|, i requires 0 <= i < |jobs| => Device(jobs[i], tokens[i]))
  }

  // ---- deleting a list of Jobs -----------------------------------------------------------

  /** Python's `list.remove`. */
  function RemoveFirst(s: seq<JobName>, x: JobName): (r: seq<JobName>)
    requires x in s
    ensures multiset(r) == multiset(s) - multiset{x}
  {
    if s[0] == x then
      assert s == [x] + s[1..];
      s[1..]
    else
      assert s == [s[0]] + s[1..];
      [s[0]] + RemoveFirst(s[1..], x)
  }

  /** The names whose deletion was not acknowledged; the k-th deletion has the k-th outcome. */
  function Kept(names: seq<JobName>, fates: nat -> Net): seq<JobName> {
    if names == [] then []
    else
      var n := |names| - 1;
      Kept(names[..n], fates) + (if fates(n).Acked? then [] else [names[n]])
  }

  /** The names a deletion reached, acknowledged or not. */
  function Deleted(names: seq<JobName>, fates: nat -> Net): set<JobName> {
    set k | 0 <= k < |names| && !fates(k).Dropped? :: names[k]
  }

  lemma KeptStep(names: seq<JobName>, k: nat, fates: nat -> Net)
    requires k < |names|
    ensures Kept(names[..k + 1], fates) == Kept(names[..k], fates) + (if fates(k).Acked? then [] else [names[k]])
  {
    assert names[..k + 1][..k] == names[..k];
  }

  lemma DeletedStep(names: seq<JobName>, k: nat, fates: nat -> Net)
    requires k < |names|
    ensures Deleted(names[..k + 1], fates) ==
      Deleted(names[..k], fates) + (if fates(k).Dropped? then {} else {names[k]})
  {
    var a, b := Deleted(names[..k + 1], fates), Deleted(names[..k], fates);
    forall n | n in a ensures n in b || (n == names[k] && !fates(k).Dropped?) {
      var i :| 0 <= i < k + 1 && !fates(i).Dropped? && names[..k + 1][i] == n;
      if i < k { assert names[..k][i] == n; }
    }
    forall n | n in b ensures n in a {
      var i :| 0 <= i < k && !fates(i).Dropped? && names[..k][i] == n;
      assert names[..k + 1][i] == n;
    }
    if !fates(k).Dropped? { assert names[..k + 1][k] == names[k]; }
  }

  lemma DeleteStep(before: map<JobName, Job>, names: seq<JobName>, k: nat, fates: nat -> Net)
    requires k < |names|
    ensures before - Deleted(names[..k + 1], fates) ==
      (if fates(k).Dropped? then before - Deleted(names[..k], fates)
       else before - Deleted(names[..k], fates) - {names[k]})
  {
    DeletedStep(names, k, fates);
  }

  /** A Job no deletion reached is still on the list, and the list is empty exactly if every deletion was
      acknowledged. */
  lemma {:induction false} StillListed(names: seq<JobName>, fates: nat -> Net)
    ensures forall n :: n in names && n !in Deleted(names, fates) ==> n in Kept(names, fates)
    ensures forall n :: n in Kept(names, fates) ==> n in names
    ensures Kept(names, fates) == [] <==> forall k :: 0 <= k < |names| ==> fates(k).Acked?
  {
    if names != [] {
      var k := |names| - 1;
      StillListed(names[..k], fates);
      KeptStep(names, k, fates);
      DeletedStep(names, k, fates);
      assert names[..k + 1] == names;
    }
  }

  /** Midway through a stop the list holds the refused names and those still to come. */
  predicate Sweeping(jobs: seq<JobName>, names: seq<JobName>, k: nat, fates: nat -> Net)
    requires k <= |names|
  {
    multiset(jobs) == multiset(Kept(names[..k], fates)) + multiset(names[k..])
  }

  lemma SweepStep(jobs: seq<JobName>, names: seq<JobName>, k: nat, fates: nat -> Net)
    requires k < |names| && Sweeping(jobs, names, k, fates)
    ensures names[k] in jobs
    ensures Sweeping(if fates(k).Acked? then RemoveFirst(jobs, names[k]) else jobs, names, k + 1, fates)
  {
    KeptStep(names, k, fates);
    assert names[k..] == [names[k]] + names[k + 1..];
    assert names[k] in multiset(jobs);
  }

  // ---- the cluster -----------------------------------------------------------------------

  class Cluster {
    var jobs: map<JobName, Job>

    constructor ()
      ensures jobs == map[]
    {
      jobs := map[];
    }

    method CreateJob(name: JobName, image: string, granted: bool) returns (ok: bool)
      modifies this
      ensures ok <==> granted && name !in old(jobs)
      ensures jobs == if ok then old(jobs)[name := Job(image, None)] else old(jobs)
    {
      ok := granted && name !in jobs;
      if ok { jobs := jobs[name := Job(image, None)]; }
    }

    method CreateSecret(name: JobName, token: Token, net: Net) returns (ok: bool)
      requires name in jobs
      modifies this
      ensures ok == net.Acked?
      ensures jobs == if net.Dropped? then old(jobs) else old(jobs)[name := old(jobs)[name].(token := Some(token))]
    {
      if !net.Dropped? { jobs := jobs[name := jobs[name].(token := Some(token))]; }
      ok := net.Acked?;
    }

    method Delete(name: JobName, net: Net) returns (ok: bool)
      modifies this
      ensures ok == net.Acked?
      ensures jobs == if net.Dropped? then old(jobs) else old(jobs) - {name}
    {
      if !net.Dropped? { jobs := jobs - {name}; }
      ok := net.Acked?;
    }
  }

  // ---- the host --------------------------------------------------------------------------

  predicate Creatable(cluster: map<JobName, Job>, session: string, i: nat, t: Try) {
    t.created && JobName(session, t.salt, i) !in cluster && t.secret.Acked?
  }

  /** The names, tokens and Jobs a start has made so far. */
  predicate Made(jobs: seq<JobName>, tokens: seq<Token>, session: string, images: seq<string>, tries: nat -> Try,
                 before: map<JobName, Job>, now: map<JobName, Job>)
  {
    && |tokens| <= |jobs| <= |images|
    && (forall i :: 0 <= i < |jobs| ==>
      jobs[i] == JobName(session, tries(i).salt, i) && jobs[i] !in before && jobs[i] in now)
    && (forall i :: 0 <= i < |tokens| ==>
      tokens[i] == tries(i).token && now[jobs[i]] == Job(images[i], Some(tokens[i])))
  }

  /** The Jobs of others are untouched, and every new Job is listed. */
  predicate Conserved(jobs: seq<JobName>, before: map<JobName, Job>, now: map<JobName, Job>) {
    && (forall n :: n in before ==> n in now && now[n] == before[n])
    && (forall n :: n in now && n !in before ==> n in jobs)
  }

  /** One more Job, and its token unless the Secret was refused. */
  lemma MadeMore(jobs: seq<JobName>, tokens: seq<Token>, session: string, images: seq<string>, tries: nat -> Try,
                 before: map<JobName, Job>, now: map<JobName, Job>, secret: Option<Token>)
    requires Made(jobs, tokens, session, images, tries, before, now) && |jobs| == |tokens| < |images|
    requires Conserved(jobs, before, now)
    requires JobName(session, tries(|jobs|).salt, |jobs|) !in now
    ensures var name := JobName(session, tries(|jobs|).salt, |jobs|);
      var next := now[name := Job(images[|jobs|], secret)];
      && Made(jobs + [name], tokens, session, images, tries, before, next)
      && Conserved(jobs + [name], before, next)
      && (secret == Some(tries(|jobs|).token) ==>
            Made(jobs + [name], tokens + [secret.value], session, images, tries, before, next))
  {
  }

  lemma StopConserves(made: seq<JobName>, left: seq<JobName>, before: map<JobName, Job>, now: map<JobName, Job>,
                      fates: nat -> Net)
    requires Conserved(made, before, now) && forall n :: n in made ==> n !in before
    requires forall n :: n in made && n !in Deleted(made, fates) ==> n in left
    ensures Conserved(left, before, now - Deleted(made, fates))
  {
  }

  class EmulatorHost {
    const cluster: Cluster
    var jobs: seq<JobName>
    var tokens: seq<Token>
    var devices: seq<Device>
    var session: string
    /** The Jobs this host created and has not handed over. */
    ghost var created: set<JobName>

    ghost predicate Answers()
      reads this, cluster
    {
      forall n :: n in created && n in cluster.jobs ==> n in jobs
    }

    ghost predicate Valid()
      reads this, cluster
    {
      && Answers()
      && (tokens == [] || |tokens| == |jobs|)
      && (jobs != [] ==> ValidSid(session))
      && |devices| <= |tokens|
      && (forall i :: 0 <= i < |devices| ==> devices[i] == Device(jobs[i], tokens[i]))
    }

    constructor (c: Cluster)
      ensures Valid() && cluster == c && jobs == [] && created == {}
    {
      cluster := c;
      jobs, tokens, devices, session, created := [], [], [], "", {};
    }

    method CloseClients()
      modifies `devices, `tokens
      ensures devices == [] && tokens == []
    {
      devices := [];
      tokens := [];
    }

    method Stop(fates: nat -> Net) returns (ok: bool)
      requires Answers()
      modifies `jobs, `tokens, `devices, cluster
      ensures devices == [] && tokens == []
      // a Job stays listed exactly as often as its deletion was not acknowledged
      ensures multiset(jobs) == multiset(Kept(old(jobs), fates))
      ensures cluster.jobs == old(cluster.jobs) - Deleted(old(jobs), fates)
      ensures ok <==> jobs == []
      ensures ok <==> forall k :: 0 <= k < |old(jobs)| ==> fates(k).Acked?
      ensures Answers()
      ensures forall n :: n in old(jobs) && n !in Deleted(old(jobs), fates) ==> n in jobs
      ensures forall n :: n in jobs ==> n in old(jobs)
    {
      CloseClients();
      ghost var names := jobs;
      DeleteAll(fates);
      StillListed(names, fates);
      SameElements(jobs, Kept(names, fates));
      ok := jobs == [];
    }

    method DeleteAll(fates: nat -> Net)
      modifies `jobs, cluster
      ensures multiset(jobs) == multiset(Kept(old(jobs), fates))
      ensures cluster.jobs == old(cluster.jobs) - Deleted(old(jobs), fates)
    {
      var names := jobs;
      assert names[..0] == [] && names[0..] == names;
      for k := 0 to |names|
        invariant Sweeping(jobs, names, k, fates)
        invariant cluster.jobs == old(cluster.jobs) - Deleted(names[..k], fates)
      {
        SweepStep(jobs, names, k, fates);
        DeleteStep(old(cluster.jobs), names, k, fates);
        var done := cluster.Delete(names[k], fates(k));
        if done { jobs := RemoveFirst(jobs, names[k]); }
      }
      assert names[..|names|] == names && names[|names|..] == [];
    }

    /** The next process takes the Jobs over from the registry. */
    method Detach()
      modifies `jobs, `tokens, `devices, `created
      ensures jobs == [] && tokens == [] && devices == [] && created == {}
    {
      CloseClients();
      jobs := [];
      created := {};
    }

    method CreateJobWithSecret(name: JobName, image: string, t: Try) returns (ok: bool)
      modifies `jobs, `created, cluster
      ensures var made := t.created && name !in old(cluster.jobs);
        && ok == (made && t.secret.Acked?)
        && jobs == (if made then old(jobs) + [name] else old(jobs))
        && created == (if made then old(created) + {name} else old(created))
        && cluster.jobs == if !made then old(cluster.jobs)
           else old(cluster.jobs)[name := Job(image, if t.secret.Dropped? then None else Some(t.token))]
    {
      ok := cluster.CreateJob(name, image, t.created);
      if ok {
        jobs := jobs + [name];
        created := created + {name};
        ok := cluster.CreateSecret(name, t.token, t.secret);
      }
    }

    method CreateAll(id: string, images: seq<string>, tries: nat -> Try) returns (ok: bool)
      requires Answers() && jobs == [] && tokens == []
      modifies `jobs, `tokens, `created, cluster
      ensures Answers() && Made(jobs, tokens, id, images, tries, old(cluster.jobs), cluster.jobs)
      ensures Conserved(jobs, old(cluster.jobs), cluster.jobs)
      ensures ok <==> forall i :: 0 <= i < |images| ==> Creatable(old(cluster.jobs), id, i, tries(i))
      ensures ok ==> |jobs| == |tokens| == |images|
    {
      for i := 0 to |images|
        invariant |jobs| == |tokens| == i
        invariant Answers() && Made(jobs, tokens, id, images, tries, old(cluster.jobs), cluster.jobs)
        invariant Conserved(jobs, old(cluster.jobs), cluster.jobs)
        invariant forall k :: 0 <= k < i ==> Creatable(old(cluster.jobs), id, k, tries(k))
      {
        var name := JobName(id, tries(i).salt, i);
        if name !in cluster.jobs {
          MadeMore(jobs, tokens, id, images, tries, old(cluster.jobs), cluster.jobs,
                   if tries(i).secret.Dropped? then None else Some(tries(i).token));
        }
        ok := CreateJobWithSecret(name, images[i], tries(i));
        if !ok {
          assert !Creatable(old(cluster.jobs), id, i, tries(i));
          return;
        }
        tokens := tokens + [tries(i).token];
      }
      ok := true;
    }

    method ConnectAll(boots: nat -> Boot) returns (ok: bool)
      requires |jobs| == |tokens| && devices == []
      modifies `devices
      ensures |devices| <= |jobs| && devices == Pairs(jobs, tokens)[..|devices|]
      ensures ok <==> forall i :: 0 <= i < |jobs| ==> boots(i).Booted?
      ensures ok ==> |devices| == |jobs|
    {
      for i := 0 to |jobs|
        invariant |devices| == i && devices == Pairs(jobs, tokens)[..i]
        invariant forall k :: 0 <= k < i ==> boots(k).Booted?
      {
        if boots(i).NoPod? { return false; }
        devices := devices + [Device(jobs[i], tokens[i])];
        if boots(i).NotBooted? { return false; }
      }
      ok := true;
    }

    method Start(profile: Profile, id: string, tries: nat -> Try, boots: nat -> Boot, fates: nat -> Net)
      returns (r: Result<seq<Device>>)
      requires Valid()
      modifies this, cluster
      ensures Valid()
      ensures var accepted := old(jobs) == [] && ValidSid(id) && ValidProfile(profile);
        && (!accepted ==> r.Err? && unchanged(this) && unchanged(cluster))
        && (r.Ok? <==> (accepted && Images(profile) != []
                        && (forall i :: 0 <= i < |Images(profile)| ==> Creatable(old(cluster.jobs), id, i, tries(i)))
                        && (forall i :: 0 <= i < |Images(profile)| ==> boots(i).Booted?)))
      // device i talks to the Job made for image i with that Job's own token
      ensures r.Ok? ==> Made(jobs, tokens, id, Images(profile), tries, old(cluster.jobs), cluster.jobs)
      ensures r.Ok? ==> |jobs| == |tokens| == |Images(profile)| && r.value == devices == Pairs(jobs, tokens)
      ensures r.Ok? ==> session == id
      // a start that fails leaves no Job it does not list, and touches nobody else's
      ensures Conserved(jobs, old(cluster.jobs), cluster.jobs)
      ensures r.Err? && old(jobs) == [] ==> devices == [] && tokens == []
    {
      if jobs != [] { return Err("host already started"); }
      if !ValidSid(id) { return Err("invalid session id"); }
      if profile.images != [] && |profile.images| != profile.count {
        return Err("images must contain exactly count entries");
      }
      if profile.jobTimeout <= 0 { return Err("job_timeout_seconds must be positive"); }
      var images := Images(profile);
      session := id;
      var ok := CreateAll(id, images, tries);
      if ok {
        ok := ConnectAll(boots);
        if ok && devices != [] { return Ok(devices); }
      }
      ghost var made, now := jobs, cluster.jobs;
      var _ := Stop(fates);
      StopConserves(made, jobs, old(cluster.jobs), now, fates);
      r := Err("start failed");
    }

    function Describe(): (r: HostRecord)
      requires Valid()
      reads this, cluster
      // only a host that still has its tokens can be reattached: after a stop, even a failed one, it cannot
      ensures Acceptable(r) <==> tokens != []
      ensures Acceptable(r) && |devices| == |jobs| ==> devices == Pairs(r.jobs, r.tokens)
    {
      HostRecord(session, jobs, tokens)
    }

    method Attach(record: HostRecord, looks: nat -> Look) returns (r: Result<seq<Device>>)
      requires Valid()
      modifies this
      ensures Valid()
      ensures r.Ok? <==> old(jobs) == [] && Acceptable(record) && forall i :: 0 <= i < |record.jobs| ==> looks(i).Found?
      ensures r.Ok? ==> jobs == record.jobs && tokens == record.tokens && session == record.session
      ensures r.Ok? ==> r.value == devices == Pairs(record.jobs, record.tokens)
      ensures old(jobs) != [] || !Acceptable(record) ==> unchanged(this)
      // an attach that fails midway lists the Jobs it reached, or none if one of them is gone
      ensures r.Err? && old(jobs) == [] && Acceptable(record) ==>
        exists k :: 0 <= k < |record.jobs| && !looks(k).Found? && (forall i :: 0 <= i < k ==> looks(i).Found?)
          && var reached := if looks(k).Gone? then 0 else if looks(k).Silent? then k + 1 else k;
             jobs == record.jobs[..reached] && tokens == record.tokens[..reached]
    {
      if jobs != [] { return Err("host already started"); }
      if !Acceptable(record) { return Err("record must carry one token per job"); }
      session := record.session;
      for i := 0 to |record.jobs|
        invariant jobs == record.jobs[..i] && tokens == record.tokens[..i]
        invariant devices == Pairs(record.jobs, record.tokens)[..i]
        invariant forall k :: 0 <= k < i ==> looks(k).Found?
        invariant session == record.session && Answers()
      {
        if looks(i).Failed? { return Err("kubectl get failed"); }
        if looks(i).Gone? {
          Detach();
          return Err("Android Job is no longer running");
        }
        jobs := jobs + [record.jobs[i]];
        tokens := tokens + [record.tokens[i]];
        if looks(i).Silent? { return Err("device did not answer"); }
        devices := devices + [Device(record.jobs[i], record.tokens[i])];
      }
      r := Ok(devices);
    }
  }

  lemma SameElements(s: seq<JobName>, t: seq<JobName>)
    requires multiset(s) == multiset(t)
    ensures forall n :: n in s <==> n in t
    ensures s == [] <==> t == []
  {
    forall n ensures n in s <==> n in t {
      assert n in s <==> n in multiset(s);
      assert n in t <==> n in multiset(t);
    }
    if s != [] { assert s[0] in t; }
    if t != [] { assert t[0] in s; }
  }
}

/**
 * The `seed_roster` management command: it creates or updates one user per
 * roster entry (matched by lower-cased email), gives each a profile whose
 * title is derived from the role, assigns initials that are unique across
 * the profiles, and puts the user in the role's group or in "employees".
 * The user and profile tables are rows keyed by the user's email; the
 * console message is left out.
 */
module SeedRoster {
  import opened Wrappers
  import opened Text

  /** `(first_name[:1] or '').upper() + (last_name[:1] or '').upper()`. */
  function BaseInitials(first: string, last: string): (r: string)
    ensures |r| <= 2
  {
    Upper(first[..if first == "" then 0 else 1]) + Upper(last[..if last == "" then 0 else 1])
  }

  /** The stem the numbered candidates grow from: the base initials, or "NA" when they are empty. */
  function Stem(first: string, last: string): (r: string)
    ensures r != ""
  {
    var base := BaseInitials(first, last);
    if base == "" then "NA" else base
  }

  /** The `k`-th candidate: the stem itself first, then the stem followed by 2, 3, 4, … */
  function Candidate(stem: string, k: nat): string {
    if k < 2 then stem else stem + NatStr(k)
  }

  /** Candidates from the first on are pairwise different. */
  lemma CandidateInjective(stem: string, j: nat, k: nat)
    requires 1 <= j && 1 <= k && Candidate(stem, j) == Candidate(stem, k)
    ensures j == k
  {
    if j >= 2 && k >= 2 {
      assert NatStr(j) == Candidate(stem, j)[|stem|..];
      assert NatStr(k) == Candidate(stem, k)[|stem|..];
      NatStrInjective(j, k);
    }
  }

  /** A subset is no larger than its superset. */
  lemma {:induction false} SubsetSize<T>(a: set<T>, b: set<T>)
    requires a <= b
    ensures |a| <= |b|
    decreases |a|
  {
    if a != {} {
      var x :| x in a;
      SubsetSize(a - {x}, b - {x});
    }
  }

  /**
   * `_unique_initials`: the first candidate not in `taken` — the base
   * initials when they are non-empty and free, else the first free one
   * of stem, stem2, stem3, … (with "NA" as stem for empty initials).
   * The loop ends because `taken` is finite and the candidates differ.
   */
  method UniqueInitials(first: string, last: string, taken: set<string>) returns (candidate: string, ghost tries: nat)
    ensures candidate !in taken && candidate != ""
    ensures tries >= 1 && candidate == Candidate(Stem(first, last), tries)
    ensures forall j :: 1 <= j < tries ==> Candidate(Stem(first, last), j) in taken
  {
    var base := BaseInitials(first, last);
    if base != "" && base !in taken {
      return base, 1;
    }
    if base == "" {
      base := "NA";
    }
    var idx := 2;
    candidate := base;
    tries := 1;
    ghost var seen: set<string> := {};
    while candidate in taken
      invariant idx == tries + 1 && candidate == Candidate(base, tries)
      invariant forall j :: 1 <= j < tries ==> Candidate(base, j) in taken
      invariant seen <= taken
      invariant forall x :: x in seen ==> exists j :: 1 <= j < tries && x == Candidate(base, j)
      invariant |seen| == tries - 1
      decreases |taken| - |seen|
    {
      assert candidate !in seen by {
        if candidate in seen {
          var j :| 1 <= j < tries && candidate == Candidate(base, j);
          CandidateInjective(base, j, tries);
        }
      }
      seen := seen + {candidate};
      SubsetSize(seen, taken);
      candidate := base + NatStr(idx);
      idx := idx + 1;
      tries := tries + 1;
    }
  }

  /** One roster line: email, first name, last name and role. */
  datatype RosterEntry = RosterEntry(email: string, first: string, last: string, role: string)

  /** The user columns the seeder writes, and the user's groups. */
  datatype UserRow = UserRow(firstName: string, lastName: string, isActive: bool, groups: set<string>)

  /** The profile columns the seeder writes. */
  datatype ProfileRow = ProfileRow(title: string, active: bool, initials: string)

  /** The group of every role without a group of its own. */
  const DefaultGroup: string := "employees"

  /** `ROLE_GROUP_MAP`: the three roles with a group of their own, named like the role. */
  const RoleGroupMap: map<string, string> := map[
    "managing_partner" := "managing_partner",
    "payroll_partner" := "payroll_partner",
    "office_manager" := "office_manager"]

  /** `ROLE_GROUP_MAP.get(title)`, falling back to the default group. */
  function GroupFor(role: string): (g: string)
    ensures g != ""
    ensures role in RoleGroupMap ==> g == RoleGroupMap[role]
    ensures role !in RoleGroupMap ==> g == DefaultGroup
  {
    if role in RoleGroupMap && RoleGroupMap[role] != "" then RoleGroupMap[role] else DefaultGroup
  }

  /** `title.replace("_", " ").title()`: the profile title for a role. */
  function RoleTitle(role: string): (t: string)
    ensures |t| == |role| && '_' !in t
  {
    Title(ReplaceChar(role, '_', ' '))
  }

  /** The role "managing_partner" becomes the title "Managing Partner". */
  lemma RoleTitleExample()
    ensures RoleTitle("managing_partner") == "Managing Partner"
  {
    var r := RoleTitle("managing_partner");
    assert r[0] == 'M' && r[8] == ' ' && r[9] == 'P';
  }

  /** The non-empty initials of the profiles: `initials_taken`. */
  function InitialsTaken(profiles: map<string, ProfileRow>): (r: set<string>)
    ensures forall x :: x in r <==> exists e :: e in profiles && profiles[e].initials != "" && x == profiles[e].initials
    ensures "" !in r
  {
    set e | e in profiles && profiles[e].initials != "" :: profiles[e].initials
  }

  /**
   * Writing a profile with initials adds those initials to the taken set,
   * as long as the profile it replaces had none or the same ones.
   */
  lemma InitialsAfterPut(profiles: map<string, ProfileRow>, email: string, row: ProfileRow)
    requires row.initials != ""
    requires email in profiles && profiles[email].initials != "" ==> profiles[email].initials == row.initials
    ensures InitialsTaken(profiles[email := row]) == InitialsTaken(profiles) + {row.initials}
  {
    var after := profiles[email := row];
    forall x | x in InitialsTaken(after) ensures x in InitialsTaken(profiles) + {row.initials} {
      var e :| e in after && after[e].initials != "" && x == after[e].initials;
      if e != email {
        assert profiles[e] == after[e];
      }
    }
    forall x | x in InitialsTaken(profiles) + {row.initials} ensures x in InitialsTaken(after) {
      if x != row.initials {
        var e :| e in profiles && profiles[e].initials != "" && x == profiles[e].initials;
        assert after[e] == profiles[e];
      } else {
        assert after[email].initials == x;
      }
    }
  }

  /** Every profile that had initials still has the same ones. */
  predicate KeepsInitials(before: map<string, ProfileRow>, after: map<string, ProfileRow>) {
    forall e :: e in before && before[e].initials != "" ==> e in after && after[e].initials == before[e].initials
  }

  /**
   * Two profiles share non-empty initials only when both already had
   * them in `start`: initials assigned since then are distinct from each
   * other and from every earlier one.
   */
  predicate NewInitialsUnique(start: map<string, ProfileRow>, now: map<string, ProfileRow>) {
    forall a, b :: a in now && b in now && a != b && now[a].initials != "" && now[a].initials == now[b].initials ==>
      a in start && start[a].initials != "" && b in start && start[b].initials != ""
  }

  /** The lower-cased emails of the roster. */
  function RosterEmails(roster: seq<RosterEntry>): (r: set<string>)
    ensures forall k :: 0 <= k < |roster| ==> Lower(roster[k].email) in r
  {
    set k | 0 <= k < |roster| :: Lower(roster[k].email)
  }

  /** The last roster entry for a lower-cased email: the one whose values stay after the run. */
  function Latest(roster: seq<RosterEntry>, email: string): (r: Option<RosterEntry>)
    ensures r.Some? <==> email in RosterEmails(roster)
    ensures r.Some? ==> Lower(r.value.email) == email
    decreases |roster|
  {
    if roster == [] then None
    else if Lower(roster[|roster| - 1].email) == email then Some(roster[|roster| - 1])
    else
      var init := roster[..|roster| - 1];
      assert roster == init + [roster[|roster| - 1]];
      RosterEmailsSnoc(init, roster[|roster| - 1]);
      Latest(init, email)
  }

  /** With one entry per email, each entry is the latest for its email. */
  lemma {:induction false} LatestOfDistinct(roster: seq<RosterEntry>, k: int)
    requires 0 <= k < |roster|
    requires forall i, j :: 0 <= i < j < |roster| ==> Lower(roster[i].email) != Lower(roster[j].email)
    ensures Latest(roster, Lower(roster[k].email)) == Some(roster[k])
    decreases |roster|
  {
    if k < |roster| - 1 {
      var init := roster[..|roster| - 1];
      assert init[k] == roster[k];
      LatestOfDistinct(init, k);
    }
  }

  /**
   * The first entry for a lower-cased email: the one that gives a profile
   * without initials its initials.
   */
  function Earliest(roster: seq<RosterEntry>, email: string): (r: Option<RosterEntry>)
    ensures r.Some? <==> email in RosterEmails(roster)
    ensures r.Some? ==> Lower(r.value.email) == email
    decreases |roster|
  {
    if roster == [] then None
    else
      var init := roster[..|roster| - 1];
      assert roster == init + [roster[|roster| - 1]];
      RosterEmailsSnoc(init, roster[|roster| - 1]);
      if email in RosterEmails(init) then Earliest(init, email)
      else if Lower(roster[|roster| - 1].email) == email then Some(roster[|roster| - 1])
      else None
  }

  /**
   * `x` is what `_unique_initials` picks from `stem` once every candidate
   * before it is in `taken`: some `t`-th candidate whose predecessors are
   * all taken.
   */
  ghost predicate AfterTakenCandidates(stem: string, taken: set<string>, x: string) {
    exists t: nat :: 1 <= t && x == Candidate(stem, t) && forall j :: 1 <= j < t ==> Candidate(stem, j) in taken
  }

  /** Taking more initials keeps a candidate's predecessors taken. */
  lemma AfterTakenGrows(stem: string, taken: set<string>, more: set<string>, x: string)
    requires AfterTakenCandidates(stem, taken, x) && taken <= more
    ensures AfterTakenCandidates(stem, more, x)
  {
    var t: nat :| 1 <= t && x == Candidate(stem, t) && forall j :: 1 <= j < t ==> Candidate(stem, j) in taken;
    assert forall j :: 1 <= j < t ==> Candidate(stem, j) in more;
  }

  /** The user and profile tables and the group names, as the seeder sees them. */
  class RosterStore {
    var users: map<string, UserRow>
    var profiles: map<string, ProfileRow>
    var groupNames: set<string>

    /** A store with the given rows. */
    constructor (users: map<string, UserRow>, profiles: map<string, ProfileRow>, groupNames: set<string>)
      ensures this.users == users && this.profiles == profiles && this.groupNames == groupNames
    {
      this.users, this.profiles, this.groupNames := users, profiles, groupNames;
    }
  }

  /**
   * What one iteration does to the tables: the user row gets the entry's
   * names, is active and joins the role's group; the profile row gets the
   * role's title and is active; initials it had are kept, and a profile
   * without initials gets ones that no profile had.
   */
  ghost predicate Step(entry: RosterEntry, u1: map<string, UserRow>, p1: map<string, ProfileRow>,
                 u2: map<string, UserRow>, p2: map<string, ProfileRow>) {
    var email := Lower(entry.email);
    var oldGroups := if email in u1 then u1[email].groups else {};
    u2 == u1[email := UserRow(entry.first, entry.last, true, oldGroups + {GroupFor(entry.role)})]
    && email in p2 && p2 == p1[email := p2[email]]
    && p2[email].title == RoleTitle(entry.role) && p2[email].active && p2[email].initials != ""
    && (email in p1 && p1[email].initials != "" ==> p2[email].initials == p1[email].initials)
    && (email !in p1 || p1[email].initials == "" ==> p2[email].initials !in InitialsTaken(p1))
  }

  /**
   * The choice `Step` makes for a profile without initials: the first
   * candidate grown from the entry's names that no profile had.
   */
  ghost predicate PicksFirstFree(entry: RosterEntry, p1: map<string, ProfileRow>, p2: map<string, ProfileRow>) {
    var email := Lower(entry.email);
    email in p2 && (email !in p1 || p1[email].initials == "" ==>
      AfterTakenCandidates(Stem(entry.first, entry.last), InitialsTaken(p1), p2[email].initials))
  }

  /**
   * One iteration of `Command.handle`: the user is created or updated with
   * the entry's names and made active; the profile gets the role's title,
   * is made active and keeps its initials, or receives the first free
   * candidate, which is then taken; the user joins the role's group.
   */
  method SeedOne(store: RosterStore, entry: RosterEntry, taken: set<string>) returns (newTaken: set<string>, wasCreated: bool)
    requires taken == InitialsTaken(store.profiles)
    modifies store
    ensures newTaken == InitialsTaken(store.profiles)
    ensures wasCreated <==> Lower(entry.email) !in old(store.users)
    ensures Step(entry, old(store.users), old(store.profiles), store.users, store.profiles)
    ensures PicksFirstFree(entry, old(store.profiles), store.profiles)
    ensures store.groupNames == old(store.groupNames) + {GroupFor(entry.role)}
  {
    var email := Lower(entry.email);
    wasCreated := email !in store.users;
    var groups := if wasCreated then {} else store.users[email].groups;
    var profile := if email in store.profiles then store.profiles[email] else ProfileRow("", true, "");
    var initials := profile.initials;
    newTaken := taken;
    if initials == "" {
      ghost var tries;
      initials, tries := UniqueInitials(entry.first, entry.last, taken);
      newTaken := taken + {initials};
    } else {
      assert newTaken == taken + {initials} by {
        assert email in store.profiles && store.profiles[email].initials == initials;
      }
    }
    var group := GroupFor(entry.role);
    store.users := store.users[email := UserRow(entry.first, entry.last, true, groups + {group})];
    store.profiles := store.profiles[email := ProfileRow(RoleTitle(entry.role), true, initials)];
    store.groupNames := store.groupNames + {group};
    InitialsAfterPut(old(store.profiles), email, store.profiles[email]);
  }

  /** After the run, the entry's user is active and in the entry's group, and its profile is active with initials. */
  predicate Seeded(users: map<string, UserRow>, profiles: map<string, ProfileRow>, entry: RosterEntry) {
    var email := Lower(entry.email);
    email in users && users[email].isActive && GroupFor(entry.role) in users[email].groups
    && email in profiles && profiles[email].active && profiles[email].initials != ""
  }

  /** The user's names and the profile's title are the entry's. */
  predicate Reflects(users: map<string, UserRow>, profiles: map<string, ProfileRow>, entry: RosterEntry) {
    var email := Lower(entry.email);
    email in users && users[email].firstName == entry.first && users[email].lastName == entry.last
    && email in profiles && profiles[email].title == RoleTitle(entry.role)
  }

  /**
   * `Command.handle`: the default group is created, `initials_taken`
   * starts as the non-empty initials of all profiles, and the entries are
   * seeded in order.  Afterwards every entry is seeded, every roster
   * email carries the values of its last entry, rows off the roster are
   * untouched, existing initials are kept and the initials assigned in
   * the run are unique; a profile that had no initials carries a
   * candidate grown from its first entry's names whose predecessors are
   * all taken; the two counters add up to the roster length.
   */
  method Handle(store: RosterStore, roster: seq<RosterEntry>) returns (created: nat, updated: nat)
    modifies store
    ensures created + updated == |roster|
    ensures DefaultGroup in store.groupNames
    ensures store.users.Keys == old(store.users.Keys) + RosterEmails(roster)
    ensures forall k :: 0 <= k < |roster| ==> Seeded(store.users, store.profiles, roster[k])
    ensures forall e :: e in RosterEmails(roster) ==> Reflects(store.users, store.profiles, Latest(roster, e).value)
    ensures forall e :: e in old(store.users) && e !in RosterEmails(roster) ==> store.users[e] == old(store.users)[e]
    ensures forall e :: e in old(store.profiles) && e !in RosterEmails(roster) ==>
      e in store.profiles && store.profiles[e] == old(store.profiles)[e]
    ensures store.profiles.Keys == old(store.profiles.Keys) + RosterEmails(roster)
    ensures KeepsInitials(old(store.profiles), store.profiles)
    ensures NewInitialsUnique(old(store.profiles), store.profiles)
    ensures forall e :: e in RosterEmails(roster) && (e !in old(store.profiles) || old(store.profiles)[e].initials == "") ==>
      AssignedFromFirst(roster, e, InitialsTaken(store.profiles), store.profiles[e].initials)
  {
    store.groupNames := store.groupNames + {DefaultGroup};
    created, updated := 0, 0;
    var taken := InitialsTaken(store.profiles);
    ghost var users0, profiles0 := store.users, store.profiles;
    for i := 0 to |roster|
      invariant taken == InitialsTaken(store.profiles)
      invariant created + updated == i
      invariant DefaultGroup in store.groupNames
      invariant Seeds(roster[..i], users0, profiles0, store.users, store.profiles)
      invariant SeedsInitials(roster[..i], profiles0, store.profiles)
    {
      ghost var users1, profiles1 := store.users, store.profiles;
      var wasCreated;
      taken, wasCreated := SeedOne(store, roster[i], taken);
      if wasCreated {
        created := created + 1;
      } else {
        updated := updated + 1;
      }
      PrefixSnoc(roster, i);
      SeedStep(roster[..i], roster[i], users0, profiles0, users1, profiles1, store.users, store.profiles);
      SeedStepInitials(roster[..i], roster[i], users0, profiles0, users1, profiles1, store.users, store.profiles);
    }
    assert roster[..|roster|] == roster;
  }

  /** The tables after seeding `done` from `users0` and `profiles0`: the postcondition of `Handle` for a prefix. */
  ghost predicate Seeds(done: seq<RosterEntry>, users0: map<string, UserRow>, profiles0: map<string, ProfileRow>,
                  users: map<string, UserRow>, profiles: map<string, ProfileRow>) {
    && users.Keys == users0.Keys + RosterEmails(done)
    && (forall k :: 0 <= k < |done| ==> Seeded(users, profiles, done[k]))
    && (forall e :: e in RosterEmails(done) ==> Reflects(users, profiles, Latest(done, e).value))
    && (forall e :: e in users0 && e !in RosterEmails(done) ==> users[e] == users0[e])
    && (forall e :: e in profiles0 && e !in RosterEmails(done) ==> e in profiles && profiles[e] == profiles0[e])
    && KeepsInitials(profiles0, profiles)
    && NewInitialsUnique(profiles0, profiles)
  }

  /**
   * The profile rows after seeding `done` from `profiles0`: one per old row
   * or roster email, and the ones that had no initials carry candidates
   * from their first entry's names.
   */
  ghost predicate SeedsInitials(done: seq<RosterEntry>, profiles0: map<string, ProfileRow>, profiles: map<string, ProfileRow>) {
    && profiles.Keys == profiles0.Keys + RosterEmails(done)
    && (forall e :: e in RosterEmails(done) && (e !in profiles0 || profiles0[e].initials == "") ==>
          AssignedFromFirst(done, e, InitialsTaken(profiles), profiles[e].initials))
  }

  /**
   * The initials `x` of roster email `e` are a candidate grown from the
   * names of its first entry, with every earlier candidate taken.
   */
  ghost predicate AssignedFromFirst(roster: seq<RosterEntry>, e: string, taken: set<string>, x: string)
    requires e in RosterEmails(roster)
  {
    var first := Earliest(roster, e).value;
    AfterTakenCandidates(Stem(first.first, first.last), taken, x)
  }

  /** The first `i + 1` entries are the first `i` and entry `i`. */
  lemma PrefixSnoc(roster: seq<RosterEntry>, i: int)
    requires 0 <= i < |roster|
    ensures roster[..i + 1] == roster[..i] + [roster[i]]
  {
  }

  /** The emails of a roster with one more entry. */
  lemma RosterEmailsSnoc(done: seq<RosterEntry>, entry: RosterEntry)
    ensures RosterEmails(done + [entry]) == RosterEmails(done) + {Lower(entry.email)}
  {
    var next := done + [entry];
    forall x | x in RosterEmails(next) ensures x in RosterEmails(done) + {Lower(entry.email)} {
      var k :| 0 <= k < |next| && x == Lower(next[k].email);
      if k < |done| {
        assert next[k] == done[k];
      }
    }
    forall x | x in RosterEmails(done) ensures x in RosterEmails(next) {
      var k :| 0 <= k < |done| && x == Lower(done[k].email);
      assert next[k] == done[k];
    }
    assert next[|done|] == entry;
  }

  /** The entries seeded before stay seeded, and the new one is seeded. */
  lemma StepSeeded(done: seq<RosterEntry>, entry: RosterEntry,
                   u1: map<string, UserRow>, p1: map<string, ProfileRow>,
                   u2: map<string, UserRow>, p2: map<string, ProfileRow>)
    requires forall k :: 0 <= k < |done| ==> Seeded(u1, p1, done[k])
    requires Step(entry, u1, p1, u2, p2)
    ensures forall k :: 0 <= k < |done + [entry]| ==> Seeded(u2, p2, (done + [entry])[k])
  {
    var next := done + [entry];
    forall k | 0 <= k < |next| ensures Seeded(u2, p2, next[k]) {
      if k < |done| {
        assert next[k] == done[k];
        assert Seeded(u1, p1, done[k]);
      }
    }
  }

  /** Every email carries the values of its latest entry, the new entry's email those of the new entry. */
  lemma StepReflects(done: seq<RosterEntry>, entry: RosterEntry,
                     u1: map<string, UserRow>, p1: map<string, ProfileRow>,
                     u2: map<string, UserRow>, p2: map<string, ProfileRow>)
    requires forall e :: e in RosterEmails(done) ==> Reflects(u1, p1, Latest(done, e).value)
    requires Step(entry, u1, p1, u2, p2)
    ensures forall e :: e in RosterEmails(done + [entry]) ==> Reflects(u2, p2, Latest(done + [entry], e).value)
  {
    var next := done + [entry];
    assert next[..|done|] == done;
    RosterEmailsSnoc(done, entry);
    forall e | e in RosterEmails(next) ensures Reflects(u2, p2, Latest(next, e).value) {
      if e != Lower(entry.email) {
        assert Latest(next, e) == Latest(done, e);
      }
    }
  }

  /** The new initials, if any, clash with no other profile's. */
  lemma StepUnique(profiles0: map<string, ProfileRow>, entry: RosterEntry,
                   u1: map<string, UserRow>, p1: map<string, ProfileRow>,
                   u2: map<string, UserRow>, p2: map<string, ProfileRow>)
    requires NewInitialsUnique(profiles0, p1) && KeepsInitials(profiles0, p1)
    requires Step(entry, u1, p1, u2, p2)
    ensures NewInitialsUnique(profiles0, p2) && KeepsInitials(profiles0, p2)
  {
    var email := Lower(entry.email);
    forall a, b | a in p2 && b in p2 && a != b && p2[a].initials != "" && p2[a].initials == p2[b].initials
      ensures a in profiles0 && profiles0[a].initials != "" && b in profiles0 && profiles0[b].initials != ""
    {
      if a == email || b == email {
        var other := if a == email then b else a;
        assert p2[other] == p1[other];
        if email !in p1 || p1[email].initials == "" {
          assert false;
        }
      } else {
        assert p2[a] == p1[a] && p2[b] == p1[b];
      }
    }
  }

  /** A step takes every initials that were taken before. */
  lemma StepKeepsTaken(entry: RosterEntry, u1: map<string, UserRow>, p1: map<string, ProfileRow>,
                       u2: map<string, UserRow>, p2: map<string, ProfileRow>)
    requires Step(entry, u1, p1, u2, p2)
    ensures InitialsTaken(p1) <= InitialsTaken(p2)
    ensures p2.Keys == p1.Keys + {Lower(entry.email)}
  {
    var email := Lower(entry.email);
    forall x | x in InitialsTaken(p1) ensures x in InitialsTaken(p2) {
      var e :| e in p1 && p1[e].initials != "" && x == p1[e].initials;
      assert e in p2 && p2[e].initials == x;
    }
  }

  /** Profiles that had no initials keep carrying a candidate from their first entry's names. */
  lemma StepAssigned(done: seq<RosterEntry>, entry: RosterEntry, profiles0: map<string, ProfileRow>,
                     u1: map<string, UserRow>, p1: map<string, ProfileRow>,
                     u2: map<string, UserRow>, p2: map<string, ProfileRow>)
    requires p1.Keys == profiles0.Keys + RosterEmails(done)
    requires forall e :: e in profiles0 && e !in RosterEmails(done) ==> e in p1 && p1[e] == profiles0[e]
    requires forall k :: 0 <= k < |done| ==> Seeded(u1, p1, done[k])
    requires forall e :: e in RosterEmails(done) && (e !in profiles0 || profiles0[e].initials == "") ==>
      AssignedFromFirst(done, e, InitialsTaken(p1), p1[e].initials)
    requires Step(entry, u1, p1, u2, p2)
    requires PicksFirstFree(entry, p1, p2)
    ensures forall e :: e in RosterEmails(done + [entry]) && (e !in profiles0 || profiles0[e].initials == "") ==>
      e in p2 && AssignedFromFirst(done + [entry], e, InitialsTaken(p2), p2[e].initials)
  {
    RosterEmailsSnoc(done, entry);
    StepKeepsTaken(entry, u1, p1, u2, p2);
    forall e | e in RosterEmails(done + [entry]) && (e !in profiles0 || profiles0[e].initials == "")
      ensures e in p2 && AssignedFromFirst(done + [entry], e, InitialsTaken(p2), p2[e].initials)
    {
      if e in RosterEmails(done) {
        var k :| 0 <= k < |done| && e == Lower(done[k].email);
        assert Seeded(u1, p1, done[k]);
        OldEmailAssigned(done, entry, e, u1, p1, u2, p2);
      } else {
        assert e in p1 ==> p1[e] == profiles0[e];
        NewEmailAssigned(done, entry, u1, p1, u2, p2);
      }
    }
  }

  /** An email seeded before keeps its initials, and their predecessors stay taken. */
  lemma OldEmailAssigned(done: seq<RosterEntry>, entry: RosterEntry, e: string,
                         u1: map<string, UserRow>, p1: map<string, ProfileRow>,
                         u2: map<string, UserRow>, p2: map<string, ProfileRow>)
    requires e in RosterEmails(done) && e in p1 && p1[e].initials != ""
    requires AssignedFromFirst(done, e, InitialsTaken(p1), p1[e].initials)
    requires Step(entry, u1, p1, u2, p2)
    requires InitialsTaken(p1) <= InitialsTaken(p2)
    ensures e in RosterEmails(done + [entry])
    ensures e in p2 && AssignedFromFirst(done + [entry], e, InitialsTaken(p2), p2[e].initials)
  {
    var next := done + [entry];
    assert next[..|next| - 1] == done;
    RosterEmailsSnoc(done, entry);
    assert Earliest(next, e) == Earliest(done, e);
    var first := Earliest(done, e).value;
    assert p2[e].initials == p1[e].initials;
    AfterTakenGrows(Stem(first.first, first.last), InitialsTaken(p1), InitialsTaken(p2), p2[e].initials);
  }

  /** An email seen for the first time gets the first free candidate from this entry's names. */
  lemma NewEmailAssigned(done: seq<RosterEntry>, entry: RosterEntry,
                         u1: map<string, UserRow>, p1: map<string, ProfileRow>,
                         u2: map<string, UserRow>, p2: map<string, ProfileRow>)
    requires Lower(entry.email) !in RosterEmails(done)
    requires Lower(entry.email) !in p1 || p1[Lower(entry.email)].initials == ""
    requires Step(entry, u1, p1, u2, p2)
    requires PicksFirstFree(entry, p1, p2)
    requires InitialsTaken(p1) <= InitialsTaken(p2)
    ensures Lower(entry.email) in RosterEmails(done + [entry])
    ensures var e := Lower(entry.email); e in p2 && AssignedFromFirst(done + [entry], e, InitialsTaken(p2), p2[e].initials)
  {
    var next := done + [entry];
    var e := Lower(entry.email);
    assert next[..|next| - 1] == done;
    RosterEmailsSnoc(done, entry);
    assert Earliest(next, e) == Some(entry);
    AfterTakenGrows(Stem(entry.first, entry.last), InitialsTaken(p1), InitialsTaken(p2), p2[e].initials);
  }

  /** Seeding one more entry extends what the seeded prefix guarantees. */
  lemma SeedStep(done: seq<RosterEntry>, entry: RosterEntry,
                 users0: map<string, UserRow>, profiles0: map<string, ProfileRow>,
                 u1: map<string, UserRow>, p1: map<string, ProfileRow>,
                 u2: map<string, UserRow>, p2: map<string, ProfileRow>)
    requires Seeds(done, users0, profiles0, u1, p1)
    requires Step(entry, u1, p1, u2, p2)
    ensures Seeds(done + [entry], users0, profiles0, u2, p2)
  {
    RosterEmailsSnoc(done, entry);
    StepSeeded(done, entry, u1, p1, u2, p2);
    StepReflects(done, entry, u1, p1, u2, p2);
    StepUnique(profiles0, entry, u1, p1, u2, p2);
  }

  /** Seeding one more entry extends what the seeded prefix guarantees about initials. */
  lemma SeedStepInitials(done: seq<RosterEntry>, entry: RosterEntry,
                         users0: map<string, UserRow>, profiles0: map<string, ProfileRow>,
                         u1: map<string, UserRow>, p1: map<string, ProfileRow>,
                         u2: map<string, UserRow>, p2: map<string, ProfileRow>)
    requires Seeds(done, users0, profiles0, u1, p1) && SeedsInitials(done, profiles0, p1)
    requires Step(entry, u1, p1, u2, p2)
    requires PicksFirstFree(entry, p1, p2)
    ensures SeedsInitials(done + [entry], profiles0, p2)
  {
    RosterEmailsSnoc(done, entry);
    StepKeepsTaken(entry, u1, p1, u2, p2);
    StepAssigned(done, entry, profiles0, u1, p1, u2, p2);
  }
}

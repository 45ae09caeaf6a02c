/** Contractors: stored users who are looking for work, as exposed to clients.
    `grant_id` and `config_id` are removed; `config_id_60` and every other
    stored field pass through, and `skills` is split exactly as the user
    readers split it. */
module Contractors {
  import opened Json
  import opened Users

  datatype Contractor = Contractor(
    uid: string,
    name: string,
    email: string,
    title: string,
    picture: string,
    website: string,
    location: string,
    timezone: string,
    lookingForWork: bool,
    skills: seq<string>,
    successRate: int,
    about: string,
    configId60: string)

  /** `c` carries every field of `s` except `grant_id` and `config_id`, with `skills` split. */
  predicate Exposes(c: Contractor, s: StoredUser)
  {
    c.uid == s.uid && c.name == s.name && c.email == s.email && c.title == s.title &&
    c.picture == s.picture && c.website == s.website && c.location == s.location &&
    c.timezone == s.timezone && c.lookingForWork == s.lookingForWork &&
    c.skills == SkillsFromText(s.skills) && c.successRate == s.successRate &&
    c.about == s.about && c.configId60 == s.configId60
  }

  /** The fetched record with the two identifiers deleted and `skills` split.
      (The fetched record is a fresh copy, so deleting its fields in place
      and building the value without them are the same.) */
  function ToContractor(s: StoredUser): (c: Contractor)
    ensures Exposes(c, s)
  {
    Contractor(s.uid, s.name, s.email, s.title, s.picture, s.website, s.location, s.timezone,
               s.lookingForWork, SkillsFromText(s.skills), s.successRate, s.about, s.configId60)
  }

  /** The contractor view of a decoded user record. */
  function WithoutIdentifiers(u: UserRecord): Contractor
  {
    Contractor(u.uid, u.name, u.email, u.title, u.picture, u.website, u.location, u.timezone,
               u.lookingForWork, u.skills, u.successRate, u.about, u.configId60)
  }

  /** Contractors and users read the same stored record alike: a contractor is
      the user record `getUserByUid` returns, minus `grant_id` and `config_id`. */
  lemma ContractorIsUserView(table: map<string, StoredUser>, uid: string)
    requires uid in table
    ensures GetUserByUid(table, uid).Some?
    ensures ToContractor(table[uid]) == WithoutIdentifiers(GetUserByUid(table, uid).value)
  {
  }

  /** `getContractorByUid`: `None` (null) when the uid has no record or the
      record is not looking for work; otherwise the contractor view. */
  function GetContractorByUid(table: map<string, StoredUser>, uid: string): (r: Option<Contractor>)
    ensures r.Some? <==> uid in table && table[uid].lookingForWork
    ensures r.Some? ==> Exposes(r.value, table[uid]) && r.value.lookingForWork
  {
    if uid !in table then None
    else if !table[uid].lookingForWork then None
    else Some(ToContractor(table[uid]))
  }

  /** The keys the `looking_for_work == true` query delivers, in key order. */
  function EligibleKeys(table: map<string, StoredUser>, keys: seq<string>): (r: seq<string>)
    requires forall k :: k in keys ==> k in table
    ensures forall k :: k in r <==> k in keys && table[k].lookingForWork
    ensures Distinct(keys) ==> Distinct(r)
  {
    if keys == [] then []
    else
      var rest := EligibleKeys(table, keys[1..]);
      if table[keys[0]].lookingForWork then [keys[0]] + rest else rest
  }

  /** `getContractors`: the contractor view of every eligible record, in key order. */
  function GetContractors(table: map<string, StoredUser>, keys: seq<string>): (r: seq<Contractor>)
    requires KeyOrder(table, keys)
    ensures forall i :: 0 <= i < |r| ==> r[i].lookingForWork
    ensures forall i :: 0 <= i < |r| ==> exists k :: k in table && Exposes(r[i], table[k])
  {
    var eligible := EligibleKeys(table, keys);
    seq(|eligible|, i requires 0 <= i < |eligible| => ToContractor(table[eligible[i]]))
  }

  /** One contractor per stored record that is looking for work, so `[]`
      exactly when no record is; records not looking for work never appear. */
  lemma GetContractorsCount(table: map<string, StoredUser>, keys: seq<string>)
    requires KeyOrder(table, keys)
    ensures |GetContractors(table, keys)| == |set k | k in table && table[k].lookingForWork|
    ensures GetContractors(table, keys) == [] <==> forall k :: k in table ==> !table[k].lookingForWork
    ensures forall k :: k in table && table[k].lookingForWork ==>
              ToContractor(table[k]) in GetContractors(table, keys)
  {
    var eligible := EligibleKeys(table, keys);
    DistinctCard(eligible);
    assert (set k | k in eligible) == (set k | k in table && table[k].lookingForWork);
    forall k | k in table && table[k].lookingForWork
      ensures ToContractor(table[k]) in GetContractors(table, keys)
    {
      var i :| 0 <= i < |eligible| && eligible[i] == k;
      assert GetContractors(table, keys)[i] == ToContractor(table[k]);
    }
    if GetContractors(table, keys) == [] {
      assert eligible == [];
    }
  }
}

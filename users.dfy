/** The user directory: user records, their stored form, and the uid-keyed store.
    The stored form differs from the record in one field only: `skills` is kept
    as one comma-joined string instead of a list. */
module Users {
  import opened Json

  /** A user profile as the application handles it. */
  datatype UserRecord = UserRecord(
    uid: string,
    name: string,
    email: string,
    title: string,
    picture: string,
    website: string,
    location: string,
    timezone: string,
    lookingForWork: bool,
    skills: seq<string>,
    successRate: int,
    about: string,
    configId: string,   // configuration for 30-minute meetings
    configId60: string, // configuration for 60-minute meetings
    grantId: string)

  /** A user profile as the store holds it; `skills` is a comma-joined
      string, and `None` when a record carries no `skills` at all. */
  datatype StoredUser = StoredUser(
    uid: string,
    name: string,
    email: string,
    title: string,
    picture: string,
    website: string,
    location: string,
    timezone: string,
    lookingForWork: bool,
    skills: Option<string>,
    successRate: int,
    about: string,
    configId: string,
    configId60: string,
    grantId: string)

  /** The verified identity behind a session cookie. */
  datatype IdToken = IdToken(uid: string, name: string, email: Option<string>, picture: Option<string>)

  /** Every field except `skills` agrees. */
  predicate SameProfile(u: UserRecord, s: StoredUser)
  {
    u.uid == s.uid && u.name == s.name && u.email == s.email && u.title == s.title &&
    u.picture == s.picture && u.website == s.website && u.location == s.location &&
    u.timezone == s.timezone && u.lookingForWork == s.lookingForWork &&
    u.successRate == s.successRate && u.about == s.about && u.configId == s.configId &&
    u.configId60 == s.configId60 && u.grantId == s.grantId
  }

  // ---------------------------------------------------------------------------
  // The skills list at the persistence boundary

  /** `xs.join(',')`. */
  function Join(xs: seq<string>): (r: string)
    ensures xs == [] ==> r == ""
    ensures xs != [] ==> |r| >= |xs[0]| && r[..|xs[0]|] == xs[0]
    ensures NoComma(xs) ==> (',' in r <==> |xs| > 1)
  {
    if |xs| == 0 then ""
    else if |xs| == 1 then xs[0]
    else xs[0] + "," + Join(xs[1..])
  }

  /** `s.split(',')`: the pieces between commas, in order; never empty. */
  function Split(s: string): (r: seq<string>)
    ensures |r| >= 1
    ensures forall i :: 0 <= i < |r| ==> ',' !in r[i]
  {
    if s == [] then [""]
    else
      var rest := Split(s[1..]);
      if s[0] == ',' then [""] + rest
      else [[s[0]] + rest[0]] + rest[1..]
  }

  predicate NoComma(xs: seq<string>)
  {
    forall i :: 0 <= i < |xs| ==> ',' !in xs[i]
  }

  /** The skills list read back from a stored record: an absent or empty
      string gives the empty list, anything else is split on commas. */
  function SkillsFromText(text: Option<string>): (r: seq<string>)
    ensures text.None? || text.value == "" ==> r == []
    ensures text.Some? && text.value != "" ==> r == Split(text.value) && |r| >= 1
  {
    if text.None? || text.value == "" then [] else Split(text.value)
  }

  /** The record `updateUser` writes: skills joined, every other field copied. */
  function Encode(u: UserRecord): (r: StoredUser)
    ensures SameProfile(u, r)
    ensures r.skills == Some(Join(u.skills))
  {
    StoredUser(u.uid, u.name, u.email, u.title, u.picture, u.website, u.location, u.timezone,
               u.lookingForWork, Some(Join(u.skills)), u.successRate, u.about, u.configId,
               u.configId60, u.grantId)
  }

  /** The record the readers return: skills split, every other field copied. */
  function Decode(s: StoredUser): (r: UserRecord)
    ensures SameProfile(r, s)
    ensures r.skills == SkillsFromText(s.skills)
  {
    UserRecord(s.uid, s.name, s.email, s.title, s.picture, s.website, s.location, s.timezone,
               s.lookingForWork, SkillsFromText(s.skills), s.successRate, s.about, s.configId,
               s.configId60, s.grantId)
  }

  /** Splitting a string and joining the pieces again gives the string back. */
  lemma {:induction false} JoinSplit(s: string)
    ensures Join(Split(s)) == s
  {
    if s != [] {
      var rest := Split(s[1..]);
      JoinSplit(s[1..]);
      if s[0] == ',' {
        assert Split(s) == [""] + rest;
        assert Join(Split(s)) == "" + "," + Join(rest);
      } else if |rest| == 1 {
        assert Join(Split(s)) == [s[0]] + rest[0];
      } else {
        assert Join(rest) == rest[0] + "," + Join(rest[1..]);
        assert ([[s[0]] + rest[0]] + rest[1..])[1..] == rest[1..];
        assert s == [s[0]] + s[1..];
      }
    }
  }

  lemma {:induction false} SplitNoComma(a: string)
    requires ',' !in a
    ensures Split(a) == [a]
  {
    if a != [] {
      SplitNoComma(a[1..]);
      assert a == [a[0]] + a[1..];
    }
  }

  lemma {:induction false} SplitAfterComma(a: string, b: string)
    requires ',' !in a
    ensures Split(a + "," + b) == [a] + Split(b)
  {
    var s := a + "," + b;
    if a == [] {
      assert s[1..] == b;
    } else {
      assert s[1..] == a[1..] + "," + b;
      SplitAfterComma(a[1..], b);
      assert a == [a[0]] + a[1..];
    }
  }

  /** Joining a non-empty comma-free list and splitting it again gives the list back. */
  lemma {:induction false} SplitJoin(xs: seq<string>)
    requires xs != [] && NoComma(xs)
    ensures Split(Join(xs)) == xs
  {
    if |xs| == 1 {
      SplitNoComma(xs[0]);
    } else {
      SplitJoin(xs[1..]);
      SplitAfterComma(xs[0], Join(xs[1..]));
      assert xs == [xs[0]] + xs[1..];
    }
  }

  /** The skills round trip through the store: a list whose elements hold no
      comma comes back as itself, order kept, except `[""]`, which comes back as `[]`. */
  lemma SkillsRoundTrip(xs: seq<string>)
    requires NoComma(xs)
    ensures SkillsFromText(Some(Join(xs))) == if xs == [""] then [] else xs
  {
    if xs != [] && xs != [""] {
      SplitJoin(xs);
    }
  }

  /** Decoding what `Encode` wrote gives the record back, up to `[""]` becoming `[]`. */
  lemma DecodeEncode(u: UserRecord)
    requires NoComma(u.skills)
    ensures Decode(Encode(u)) == if u.skills == [""] then u.(skills := []) else u
  {
    SkillsRoundTrip(u.skills);
  }

  // ---------------------------------------------------------------------------
  // Reads

  /** `getUserByUid`: the decoded record stored under `uid`, `None` (null) if there is none. */
  function GetUserByUid(table: map<string, StoredUser>, uid: string): (r: Option<UserRecord>)
    ensures r.None? <==> uid !in table
    ensures r.Some? ==> SameProfile(r.value, table[uid]) && r.value.skills == SkillsFromText(table[uid].skills)
  {
    if uid in table then Some(Decode(table[uid])) else None
  }

  /** `getUserData`: the same read, keyed by the token's uid; `None` stands for `false`. */
  function GetUserData(table: map<string, StoredUser>, token: IdToken): (r: Option<UserRecord>)
    ensures r.None? <==> token.uid !in table
    ensures r.Some? ==> SameProfile(r.value, table[token.uid])
  {
    GetUserByUid(table, token.uid)
  }

  predicate Distinct(keys: seq<string>)
  {
    forall i, j :: 0 <= i < j < |keys| ==> keys[i] != keys[j]
  }

  /** `keys` lists each key of `table` exactly once (the order of `Object.keys`). */
  ghost predicate KeyOrder(table: map<string, StoredUser>, keys: seq<string>)
  {
    Distinct(keys) && (forall k :: k in keys <==> k in table)
  }

  /** `getUsers`: one decoded record per stored key, in key order. */
  function GetUsers(table: map<string, StoredUser>, keys: seq<string>): (r: seq<UserRecord>)
    requires KeyOrder(table, keys)
    ensures |r| == |keys|
    ensures forall i :: 0 <= i < |r| ==> r[i] == Decode(table[keys[i]])
    ensures forall u :: u in r ==> exists k :: k in table && u == Decode(table[k])
  {
    seq(|keys|, i requires 0 <= i < |keys| => Decode(table[keys[i]]))
  }

  lemma {:induction false} DistinctCard(keys: seq<string>)
    requires Distinct(keys)
    ensures |set k | k in keys| == |keys|
  {
    if keys != [] {
      var rest := keys[1..];
      DistinctCard(rest);
      assert (set k | k in keys) == (set k | k in rest) + {keys[0]};
      assert keys[0] !in rest by {
        forall j | 0 <= j < |rest| ensures rest[j] != keys[0] {
          assert rest[j] == keys[j + 1];
        }
      }
    }
  }

  /** `getUsers` yields exactly as many records as the store holds, hence `[]`
      for an empty store, and every stored uid is represented. */
  lemma GetUsersOnePerKey(table: map<string, StoredUser>, keys: seq<string>)
    requires KeyOrder(table, keys)
    ensures |GetUsers(table, keys)| == |table|
    ensures table == map[] <==> GetUsers(table, keys) == []
    ensures forall k :: k in table ==> exists i :: 0 <= i < |keys| && keys[i] == k && GetUsers(table, keys)[i] == Decode(table[k])
  {
    DistinctCard(keys);
    assert (set k | k in keys) == table.Keys;
    forall k | k in table
      ensures exists i :: 0 <= i < |keys| && keys[i] == k && GetUsers(table, keys)[i] == Decode(table[k])
    {
      var i :| 0 <= i < |keys| && keys[i] == k;
      assert GetUsers(table, keys)[i] == Decode(table[k]);
    }
  }

  // ---------------------------------------------------------------------------
  // The store and its one writer

  class UserStore {
    var table: map<string, StoredUser>

    constructor (initial: map<string, StoredUser>)
      ensures table == initial
    {
      table := initial;
    }

    /** `updateUser`: overwrite the caller's entry with the encoded record;
        every other entry is untouched, and the answer is always `true`. */
    method UpdateUser(token: IdToken, user: UserRecord) returns (ok: bool)
      modifies this
      ensures ok
      ensures table == old(table)[token.uid := Encode(user)]
      ensures forall k :: k != token.uid ==> GetUserByUid(table, k) == GetUserByUid(old(table), k)
    {
      table := table[token.uid := Encode(user)];
      ok := true;
    }
  }

  /** What `getUserData` returns right after `updateUser` stored `user` for the same token. */
  lemma ReadAfterUpdate(table: map<string, StoredUser>, token: IdToken, user: UserRecord)
    requires NoComma(user.skills)
    ensures GetUserData(table[token.uid := Encode(user)], token)
         == Some(if user.skills == [""] then user.(skills := []) else user)
  {
    DecodeEncode(user);
  }
}

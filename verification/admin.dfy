/** The admin routes' edits of stored accounts and analyses, and the analyze route's
    insertion of a new analysis. The document store is an object holding one map per
    collection, keyed by document id. */
module Admin {
  import opened Records
  import opened Prakriti

  type Id = nat

  datatype Profile = Profile(name: string, age: nat, gender: string)

  datatype User = User(email: string, passwordHash: string, role: string, profile: Profile)

  datatype Analysis = Analysis(userId: Id, traits: Object, prakriti: Prakriti, recommendations: Bundle)

  /** An HTTP answer: a success status with a body, or an error status with a message. */
  datatype Reply<T> = Ok(status: nat, body: T) | Fail(status: nat, message: string)

  const FollowUpRequired := "Follow-up text is required"
  const AnalysisNotFound := "Analysis not found"
  const UserNotFound := "User not found"
  const UserExists := "User already exists"

  /** Some stored account already uses this email. */
  predicate EmailTaken(users: map<Id, User>, email: string)
  {
    exists id :: id in users && users[id].email == email
  }

  /** role || 'user': a missing or empty role falls back to 'user'. */
  function RoleOrDefault(role: Option<string>): (r: string)
    ensures r != ""
    ensures role.Some? && role.value != "" ==> r == role.value
    ensures role.None? || role.value == "" ==> r == "user"
  {
    match role
    case Some(s) => if s != "" then s else "user"
    case None => "user"
  }

  /** splice(index, 1) for a non-negative index: the entry at index goes, the rest keep
      their order; an index at or past the end changes nothing. */
  function SpliceOne(s: seq<string>, index: nat): seq<string>
  {
    if index < |s| then s[..index] + s[index + 1..] else s
  }

  /** What splice promises: exactly one entry fewer, everything before the index in
      place, everything after it shifted down by one; out of range, no change. */
  lemma SpliceOneRemovesExactlyOne(s: seq<string>, index: nat)
    ensures index < |s| ==> |SpliceOne(s, index)| == |s| - 1
    ensures index < |s| ==> forall j :: 0 <= j < index ==> SpliceOne(s, index)[j] == s[j]
    ensures index < |s| ==> forall j :: index <= j < |s| - 1 ==> SpliceOne(s, index)[j] == s[j + 1]
    ensures index >= |s| ==> SpliceOne(s, index) == s
    ensures multiset(SpliceOne(s, index)) + (if index < |s| then multiset{s[index]} else multiset{}) == multiset(s)
  {
    if index < |s| {
      assert s == s[..index] + [s[index]] + s[index + 1..];
    }
  }

  /** Putting the removed entry back where it was restores the list. */
  lemma {:induction false} SpliceOneInverse(s: seq<string>, index: nat)
    requires index < |s|
    ensures var r := SpliceOne(s, index); r[..index] + [s[index]] + r[index..] == s
  {
    var r := SpliceOne(s, index);
    assert r[..index] == s[..index];
    assert r[index..] == s[index + 1..];
  }

  /** Removing the last entry right after an append undoes the append. */
  lemma {:induction false} SpliceOneUndoesAppend(s: seq<string>, text: string)
    ensures SpliceOne(s + [text], |s|) == s
  {
    assert (s + [text])[..|s|] == s;
  }

  /** deleteMany({ userId }): the analyses left once those of one user are removed. */
  function WithoutOwner(analyses: map<Id, Analysis>, userId: Id): (r: map<Id, Analysis>)
    ensures forall a :: a in r ==> r[a].userId != userId
    ensures forall a :: a in analyses && analyses[a].userId != userId ==> a in r && r[a] == analyses[a]
    ensures forall a :: a in analyses && analyses[a].userId == userId ==> a !in r
    ensures r.Keys <= analyses.Keys
  {
    map a | a in analyses && analyses[a].userId != userId :: analyses[a]
  }

  /** A follow-up list replaced, everything else of the analysis kept. */
  function WithFollowUps(a: Analysis, followUp: seq<string>): (r: Analysis)
    ensures r.recommendations.followUp == followUp
    ensures r.userId == a.userId && r.traits == a.traits && r.prakriti == a.prakriti
    ensures r.recommendations.diet == a.recommendations.diet
    ensures r.recommendations.schedule == a.recommendations.schedule
  {
    a.(recommendations := a.recommendations.(followUp := followUp))
  }

  class Store {
    var users: map<Id, User>
    var analyses: map<Id, Analysis>
    /** The next id to hand out; ids are never reused. */
    var nextId: Id

    ghost predicate Valid()
      reads this
    {
      && (forall id :: id in users ==> id < nextId)
      && (forall id :: id in analyses ==> id < nextId)
    }

    constructor ()
      ensures Valid() && users == map[] && analyses == map[]
    {
      users := map[];
      analyses := map[];
      nextId := 0;
    }

    /** POST /users: refuse a taken email; otherwise store the account with the given
        role, or 'user' when none was given. */
    method CreateUser(email: string, passwordHash: string, name: string, age: nat, gender: string, role: Option<string>)
      returns (reply: Reply<Id>)
      requires Valid()
      modifies this
      ensures Valid() && analyses == old(analyses)
      ensures EmailTaken(old(users), email) ==>
        reply == Fail(400, UserExists) && users == old(users)
      ensures !EmailTaken(old(users), email) ==>
        && reply.Ok? && reply.status == 201 && reply.body !in old(users)
        && users == old(users)[reply.body := User(email, passwordHash, RoleOrDefault(role), Profile(name, age, gender))]
    {
      if EmailTaken(users, email) {
        return Fail(400, UserExists);
      }
      var id := nextId;
      users := users[id := User(email, passwordHash, RoleOrDefault(role), Profile(name, age, gender))];
      nextId := nextId + 1;
      reply := Ok(201, id);
    }

    /** PUT /users/:id: replace email, role and the whole profile; the password stays. */
    method UpdateUser(id: Id, email: string, name: string, age: nat, gender: string, role: string)
      returns (reply: Reply<User>)
      requires Valid()
      modifies this
      ensures Valid() && analyses == old(analyses) && nextId == old(nextId)
      ensures id !in old(users) ==> reply == Fail(404, UserNotFound) && users == old(users)
      ensures id in old(users) ==>
        && users == old(users)[id := User(email, old(users)[id].passwordHash, role, Profile(name, age, gender))]
        && reply == Ok(200, users[id])
    {
      if id !in users {
        return Fail(404, UserNotFound);
      }
      users := users[id := User(email, users[id].passwordHash, role, Profile(name, age, gender))];
      reply := Ok(200, users[id]);
    }

    /** DELETE /users/:id: remove the account and, with it, every analysis it owns. */
    method DeleteUser(id: Id) returns (reply: Reply<string>)
      requires Valid()
      modifies this
      ensures Valid() && nextId == old(nextId)
      ensures id !in old(users) ==>
        reply == Fail(404, UserNotFound) && users == old(users) && analyses == old(analyses)
      ensures id in old(users) ==>
        && reply == Ok(200, "User deleted")
        && users == old(users) - {id}
        && analyses == WithoutOwner(old(analyses), id)
    {
      if id !in users {
        return Fail(404, UserNotFound);
      }
      users := users - {id};
      analyses := WithoutOwner(analyses, id);
      reply := Ok(200, "User deleted");
    }

    /** POST /followups/:analysisId: missing or empty text is refused first, then an
        unknown analysis; otherwise the text goes at the end of the follow-ups. */
    method AddFollowUp(analysisId: Id, followUpText: Option<string>) returns (reply: Reply<Analysis>)
      requires Valid()
      modifies this
      ensures Valid() && users == old(users) && nextId == old(nextId)
      ensures (followUpText.None? || followUpText.value == "") ==>
        reply == Fail(400, FollowUpRequired) && analyses == old(analyses)
      ensures followUpText.Some? && followUpText.value != "" && analysisId !in old(analyses) ==>
        reply == Fail(404, AnalysisNotFound) && analyses == old(analyses)
      ensures followUpText.Some? && followUpText.value != "" && analysisId in old(analyses) ==>
        var a := old(analyses)[analysisId];
        && analyses == old(analyses)[analysisId := WithFollowUps(a, a.recommendations.followUp + [followUpText.value])]
        && reply == Ok(200, analyses[analysisId])
    {
      if followUpText.None? || followUpText.value == "" {
        return Fail(400, FollowUpRequired);
      }
      if analysisId !in analyses {
        return Fail(404, AnalysisNotFound);
      }
      var a := analyses[analysisId];
      analyses := analyses[analysisId := WithFollowUps(a, a.recommendations.followUp + [followUpText.value])];
      reply := Ok(200, analyses[analysisId]);
    }

    /** DELETE /followups/:analysisId/:index: splice one entry out of the follow-ups. */
    method RemoveFollowUp(analysisId: Id, index: nat) returns (reply: Reply<Analysis>)
      requires Valid()
      modifies this
      ensures Valid() && users == old(users) && nextId == old(nextId)
      ensures analysisId !in old(analyses) ==>
        reply == Fail(404, AnalysisNotFound) && analyses == old(analyses)
      ensures analysisId in old(analyses) ==>
        var a := old(analyses)[analysisId];
        && analyses == old(analyses)[analysisId := WithFollowUps(a, SpliceOne(a.recommendations.followUp, index))]
        && reply == Ok(200, analyses[analysisId])
    {
      if analysisId !in analyses {
        return Fail(404, AnalysisNotFound);
      }
      var a := analyses[analysisId];
      analyses := analyses[analysisId := WithFollowUps(a, SpliceOne(a.recommendations.followUp, index))];
      reply := Ok(200, analyses[analysisId]);
    }

    /** POST /prakriti/analyze: classify the traits, compose the bundle and store both
        as a new analysis of the signed-in user. */
    method SubmitAnalysis(userId: Id, traits: Object) returns (id: Id)
      requires Valid()
      modifies this
      ensures Valid() && users == old(users)
      ensures id !in old(analyses)
      ensures analyses == old(analyses)[id := Analysis(userId, traits, Classify(traits), Compose(Classify(traits)))]
    {
      var prakriti := AnalyzePrakriti(traits);
      var recommendations := GenerateRecommendations(prakriti);
      id := nextId;
      analyses := analyses[id := Analysis(userId, traits, prakriti, recommendations)];
      nextId := nextId + 1;
    }
  }
}

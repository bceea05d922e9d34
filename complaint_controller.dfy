/**
 * The complaint handlers of backend/src/controllers/complaintController.js over
 * an in-memory store: one pure transition per handler, and the class
 * `ComplaintStore` whose methods answer with the handler's HTTP status code.
 * Route gates (backend/src/routes/complaintRoutes.js:17-34) are preconditions:
 * every mutating handler has an authenticated caller, and assign and status
 * updates have an admin caller.
 */
module ComplaintController {
  import opened Wrappers
  import opened Identity
  import opened ComplaintSchema

  /** Update and delete are open to an admin and to the complaint's owner, and to no one else. */
  predicate MayModify(caller: Caller, c: Complaint)
    ensures caller.role == AdminRole ==> MayModify(caller, c)
    ensures c.user == caller.id ==> MayModify(caller, c)
    ensures MayModify(caller, c) && caller.role != AdminRole ==> c.user == caller.id
  {
    caller.role == AdminRole || c.user == caller.id
  }

  // ---------------------------------------------------------------------------
  // Voting

  /** How often `x` occurs in `s`. */
  function Count(s: seq<UserId>, x: UserId): nat {
    if s == [] then 0 else (if s[0] == x then 1 else 0) + Count(s[1..], x)
  }

  /** `$pull`: every occurrence of `x` removed, the rest kept in order. */
  function RemoveAll(s: seq<UserId>, x: UserId): (r: seq<UserId>)
    ensures x !in r
    ensures |r| == |s| - Count(s, x)
    ensures forall y :: y != x ==> (y in r <==> y in s)
    ensures multiset(r) == multiset(s)[x := 0]
  {
    if s == [] then []
    else
      assert s == [s[0]] + s[1..];
      if s[0] == x then RemoveAll(s[1..], x)
      else [s[0]] + RemoveAll(s[1..], x)
  }

  /** `$pull` works element by element: pulling from a concatenation pulls from each part, in order. */
  lemma {:induction false} RemoveAllConcat(s: seq<UserId>, t: seq<UserId>, x: UserId)
    ensures RemoveAll(s + t, x) == RemoveAll(s, x) + RemoveAll(t, x)
  {
    if s != [] {
      assert (s + t)[1..] == s[1..] + t;
      RemoveAllConcat(s[1..], t, x);
    } else {
      assert s + t == t;
    }
  }

  /** No id occurs twice. */
  predicate Distinct(s: seq<UserId>) {
    forall i, j :: 0 <= i < j < |s| ==> s[i] != s[j]
  }

  /**
   * `voteComplaint`'s update: a caller already among the voters is pulled and
   * the count drops by one; otherwise the caller is pushed and the count rises
   * by one. Only `votes`, `voters` and `updatedAt` change.
   */
  function ToggleVote(c: Complaint, voter: UserId, now: int): (r: Complaint)
    ensures voter in c.voters ==> r.votes == c.votes - 1 && voter !in r.voters
    ensures voter !in c.voters ==> r.votes == c.votes + 1 && r.voters == c.voters + [voter]
    ensures forall y :: y != voter ==> (y in r.voters <==> y in c.voters)
    ensures r == c.(votes := r.votes, voters := r.voters, updatedAt := now)
  {
    if voter in c.voters then c.(votes := c.votes - 1, voters := RemoveAll(c.voters, voter), updatedAt := now)
    else c.(votes := c.votes + 1, voters := c.voters + [voter], updatedAt := now)
  }

  lemma {:induction false} CountAbsent(s: seq<UserId>, x: UserId)
    requires x !in s
    ensures Count(s, x) == 0
  {
    if s != [] { CountAbsent(s[1..], x); }
  }

  /** In a list without repeats every id occurs at most once. */
  lemma {:induction false} DistinctCount(s: seq<UserId>, x: UserId)
    requires Distinct(s)
    ensures Count(s, x) <= 1
  {
    if s != [] {
      DistinctCount(s[1..], x);
      if s[0] == x {
        assert x !in s[1..];
        CountAbsent(s[1..], x);
      }
    }
  }

  /**
   * The balance `votes - |voters|` survives a vote whenever the caller occurs at
   * most once among the voters; so a complaint whose count matched its voters
   * keeps matching them.
   */
  lemma VoteKeepsBalance(c: Complaint, voter: UserId, now: int)
    requires Count(c.voters, voter) <= 1
    ensures var r := ToggleVote(c, voter, now);
      r.votes - |r.voters| == c.votes - |c.voters|
  {
    if voter !in c.voters {
      CountAbsent(c.voters, voter);
    } else {
      CountPresent(c.voters, voter);
    }
  }

  lemma {:induction false} CountPresent(s: seq<UserId>, x: UserId)
    requires x in s
    ensures Count(s, x) >= 1
  {
    if s[0] != x { CountPresent(s[1..], x); }
  }

  /** Votes never put an id among the voters twice. */
  lemma {:induction false} VoteKeepsVotersDistinct(c: Complaint, voter: UserId, now: int)
    requires Distinct(c.voters)
    ensures Distinct(ToggleVote(c, voter, now).voters)
  {
    if voter in c.voters {
      RemoveAllKeepsDistinct(c.voters, voter);
    }
  }

  lemma {:induction false} RemoveAllKeepsDistinct(s: seq<UserId>, x: UserId)
    requires Distinct(s)
    ensures Distinct(RemoveAll(s, x))
  {
    if s != [] {
      RemoveAllKeepsDistinct(s[1..], x);
      if s[0] != x {
        assert s[0] !in s[1..];
      }
    }
  }

  lemma {:induction false} RemoveAllAbsent(s: seq<UserId>, x: UserId)
    requires x !in s
    ensures RemoveAll(s, x) == s
  {
    if s != [] { RemoveAllAbsent(s[1..], x); }
  }

  /** A caller who had not voted and votes twice leaves the complaint as it was. */
  lemma VoteTwiceRestores(c: Complaint, voter: UserId, t1: int, t2: int)
    requires voter !in c.voters
    ensures ToggleVote(ToggleVote(c, voter, t1), voter, t2) == c.(updatedAt := t2)
  {
    var once := ToggleVote(c, voter, t1);
    assert voter in once.voters;
    RemoveAllAbsent(c.voters, voter);
    assert RemoveAll(c.voters + [voter], voter) == c.voters by {
      RemoveAllAppend(c.voters, voter);
    }
  }

  lemma {:induction false} RemoveAllAppend(s: seq<UserId>, x: UserId)
    ensures RemoveAll(s + [x], x) == RemoveAll(s, x)
  {
    if s != [] {
      assert (s + [x])[1..] == s[1..] + [x];
      RemoveAllAppend(s[1..], x);
    } else {
      assert [x][1..] == [];
    }
  }

  /**
   * A caller who had voted once and votes twice restores the count and the set
   * of voters, but their id moves to the end of the list.
   */
  lemma VoteTwiceAfterVotingReorders(c: Complaint, voter: UserId, t1: int, t2: int)
    requires Count(c.voters, voter) == 1
    ensures var r := ToggleVote(ToggleVote(c, voter, t1), voter, t2);
      r.votes == c.votes && multiset(r.voters) == multiset(c.voters)
      && r.voters == RemoveAll(c.voters, voter) + [voter]
  {
    CountPresentIn(c.voters, voter);
    RemoveOneMultiset(c.voters, voter);
  }

  lemma {:induction false} CountPresentIn(s: seq<UserId>, x: UserId)
    requires Count(s, x) >= 1
    ensures x in s
  {
    if s[0] != x { CountPresentIn(s[1..], x); }
  }

  lemma {:induction false} RemoveOneMultiset(s: seq<UserId>, x: UserId)
    requires Count(s, x) == 1
    ensures multiset(RemoveAll(s, x)) + multiset{x} == multiset(s)
  {
    if s[0] == x {
      CountZeroAbsent(s[1..], x);
      RemoveAllAbsent(s[1..], x);
      assert s == [x] + s[1..];
    } else {
      RemoveOneMultiset(s[1..], x);
      assert s == [s[0]] + s[1..];
    }
  }

  lemma {:induction false} CountZeroAbsent(s: seq<UserId>, x: UserId)
    requires Count(s, x) == 0
    ensures x !in s
  {
    if s != [] { CountZeroAbsent(s[1..], x); }
  }

  /** The order change is real: with voters `[v, w]`, two votes by `v` give `[w, v]`. */
  lemma VoteTwiceOrderExample(c: Complaint, t1: int, t2: int)
    requires c.voters == ["v", "w"]
    ensures ToggleVote(ToggleVote(c, "v", t1), "v", t2).voters == ["w", "v"]
  {
    assert ["v", "w"][1..] == ["w"];
    assert ["w"][1..] == [];
  }

  // ---------------------------------------------------------------------------
  // Comments, assignment, status

  /** `$push` of `{user: author, comment: text}`: one comment at the end, earlier ones untouched. */
  function AppendComment(c: Complaint, author: UserId, text: string, now: int): (r: Complaint)
    ensures |r.comments| == |c.comments| + 1
    ensures r.comments[..|c.comments|] == c.comments
    ensures r.comments[|c.comments|] == Comment(Some(author), text, now)
    ensures r == c.(comments := r.comments, updatedAt := now)
  {
    c.(comments := c.comments + [Comment(Some(author), text, now)], updatedAt := now)
  }

  /**
   * `assignComplaint`'s update: the assignee is set and the status forced to
   * in-progress, whatever it was (a resolved or rejected complaint included).
   */
  function AssignTo(c: Complaint, assignee: UserId, now: int): (r: Complaint)
    ensures r.assignedTo == Some(assignee) && r.status == InProgress
    ensures r == c.(assignedTo := r.assignedTo, status := r.status, updatedAt := now)
  {
    c.(assignedTo := Some(assignee), status := InProgress, updatedAt := now)
  }

  /** `updateComplaintStatus`'s update: only the status (and `updatedAt`) changes. */
  function WithStatus(c: Complaint, s: Status, now: int): (r: Complaint)
    ensures r.status == s
    ensures r == c.(status := s, updatedAt := now)
  {
    c.(status := s, updatedAt := now)
  }

  /** Votes keep a valid complaint valid. */
  lemma ToggleVoteKeepsValidity(c: Complaint, voter: UserId, now: int)
    requires ValidComplaint(c)
    ensures ValidComplaint(ToggleVote(c, voter, now))
  {
  }

  /** Appending a non-empty comment keeps a valid complaint valid. */
  lemma AppendCommentKeepsValidity(c: Complaint, author: UserId, text: string, now: int)
    requires ValidComplaint(c) && CommentOk(text)
    ensures ValidComplaint(AppendComment(c, author, text, now))
  {
    var r := AppendComment(c, author, text, now);
    assert forall i :: 0 <= i < |c.comments| ==> r.comments[i] == c.comments[i];
  }

  /** Assignment keeps a valid complaint valid. */
  lemma AssignToKeepsValidity(c: Complaint, assignee: UserId, now: int)
    requires ValidComplaint(c)
    ensures ValidComplaint(AssignTo(c, assignee, now))
  {
  }

  /** A status change keeps a valid complaint valid. */
  lemma WithStatusKeepsValidity(c: Complaint, s: Status, now: int)
    requires ValidComplaint(c)
    ensures ValidComplaint(WithStatus(c, s, now))
  {
  }

  /** Every complaint in the collection is valid. */
  ghost predicate AllValid(docs: map<string, Complaint>) {
    forall id :: id in docs ==> ValidComplaint(docs[id])
  }

  /** Storing a valid complaint keeps the collection valid. */
  lemma PutKeepsAllValid(docs: map<string, Complaint>, id: string, c: Complaint)
    requires AllValid(docs) && ValidComplaint(c)
    ensures AllValid(docs[id := c])
  {
  }

  // ---------------------------------------------------------------------------
  // The handlers over the complaints collection

  /**
   * The complaints collection, keyed by id. Each method is one handler and
   * returns the HTTP status code it answers with and the complaint it sends.
   */
  class ComplaintStore {
    var docs: map<string, Complaint>

    /** Every stored complaint passed the schema's validators. */
    ghost predicate Valid()
      reads this
    {
      AllValid(docs)
    }

    constructor(initial: map<string, Complaint>)
      requires AllValid(initial)
      ensures Valid() && docs == initial
    {
      docs := initial;
    }

    /** `getComplaint`: 404 for an unknown id, otherwise 200 and the stored complaint. */
    method GetComplaint(id: string) returns (code: int, found: Option<Complaint>)
      requires Valid()
      ensures id !in docs ==> code == 404 && found == None
      ensures id in docs ==> code == 200 && found == Some(docs[id])
      ensures found.Some? ==> ValidComplaint(found.value)
    {
      if id !in docs {
        return 404, None;
      }
      return 200, Some(docs[id]);
    }

    /**
     * `createComplaint`: the body with the caller as owner goes through
     * document validation; 400 when it fails, otherwise 201 and the new
     * complaint is stored under the fresh id.
     */
    method CreateComplaint(caller: Caller, body: ComplaintBody, newId: string, now: int)
      returns (code: int, created: Option<Complaint>)
      requires Valid() && newId !in docs
      modifies this
      ensures Valid()
      ensures !CreateValid(body) ==> code == 400 && created == None && docs == old(docs)
      ensures CreateValid(body) ==> code == 201 && created == Some(NewComplaint(body, caller.id, now))
      ensures CreateValid(body) ==> docs == old(docs)[newId := created.value]
    {
      if !CreateValid(body) {
        return 400, None;
      }
      var c := NewComplaint(body, caller.id, now);
      NewComplaintIsValid(body, caller.id, now);
      PutKeepsAllValid(docs, newId, c);
      docs := docs[newId := c];
      return 201, Some(c);
    }

    /**
     * `updateComplaint`: 404 for an unknown id, 403 unless the caller is an
     * admin or the owner, 400 when a carried field fails its validator,
     * otherwise 200 and the updated complaint replaces the stored one.
     */
    method UpdateComplaint(caller: Caller, id: string, body: ComplaintBody, now: int)
      returns (code: int, updated: Option<Complaint>)
      requires Valid()
      modifies this
      ensures Valid()
      ensures code != 200 ==> docs == old(docs) && updated == None
      ensures id !in old(docs) ==> code == 404
      ensures id in old(docs) && !MayModify(caller, old(docs)[id]) ==> code == 403
      ensures id in old(docs) && MayModify(caller, old(docs)[id]) && !FieldsValid(body) ==> code == 400
      ensures id in old(docs) && MayModify(caller, old(docs)[id]) && FieldsValid(body) ==>
        code == 200 && updated == Some(ApplyUpdate(old(docs)[id], body, now))
        && docs == old(docs)[id := updated.value]
    {
      if id !in docs {
        return 404, None;
      }
      if !MayModify(caller, docs[id]) {
        return 403, None;
      }
      if !FieldsValid(body) {
        return 400, None;
      }
      var c := ApplyUpdate(docs[id], body, now);
      ApplyUpdatePreservesValidity(docs[id], body, now);
      PutKeepsAllValid(docs, id, c);
      docs := docs[id := c];
      return 200, Some(c);
    }

    /** `deleteComplaint`: 404 for an unknown id, 403 unless admin or owner, otherwise 204 and the complaint is gone. */
    method DeleteComplaint(caller: Caller, id: string) returns (code: int)
      requires Valid()
      modifies this
      ensures Valid()
      ensures id !in old(docs) ==> code == 404 && docs == old(docs)
      ensures id in old(docs) && !MayModify(caller, old(docs)[id]) ==> code == 403 && docs == old(docs)
      ensures id in old(docs) && MayModify(caller, old(docs)[id]) ==> code == 204 && docs == old(docs) - {id}
    {
      if id !in docs {
        return 404;
      }
      if !MayModify(caller, docs[id]) {
        return 403;
      }
      docs := docs - {id};
      return 204;
    }

    /**
     * `addComment`: a missing or empty comment is refused with 400 before the
     * lookup, an unknown id gives 404, otherwise 200 and the comment is appended.
     */
    method AddComment(caller: Caller, id: string, comment: Option<string>, now: int)
      returns (code: int, updated: Option<Complaint>)
      requires Valid()
      modifies this
      ensures Valid()
      ensures code != 200 ==> docs == old(docs) && updated == None
      ensures (comment.None? || comment == Some("")) ==> code == 400
      ensures comment.Some? && comment.value != "" && id !in old(docs) ==> code == 404
      ensures comment.Some? && comment.value != "" && id in old(docs) ==>
        code == 200 && updated == Some(AppendComment(old(docs)[id], caller.id, comment.value, now))
        && docs == old(docs)[id := updated.value]
    {
      if comment.None? || comment.value == "" {
        return 400, None;
      }
      if id !in docs {
        return 404, None;
      }
      var c := AppendComment(docs[id], caller.id, comment.value, now);
      AppendCommentKeepsValidity(docs[id], caller.id, comment.value, now);
      PutKeepsAllValid(docs, id, c);
      docs := docs[id := c];
      return 200, Some(c);
    }

    /** `voteComplaint`: 404 for an unknown id, otherwise 200 and the caller's vote is toggled. */
    method Vote(caller: Caller, id: string, now: int) returns (code: int, updated: Option<Complaint>)
      requires Valid()
      modifies this
      ensures Valid()
      ensures id !in old(docs) ==> code == 404 && updated == None && docs == old(docs)
      ensures id in old(docs) ==>
        code == 200 && updated == Some(ToggleVote(old(docs)[id], caller.id, now))
        && docs == old(docs)[id := updated.value]
    {
      if id !in docs {
        return 404, None;
      }
      var c := ToggleVote(docs[id], caller.id, now);
      ToggleVoteKeepsValidity(docs[id], caller.id, now);
      PutKeepsAllValid(docs, id, c);
      docs := docs[id := c];
      return 200, Some(c);
    }

    /**
     * `assignComplaint` (admins only): a missing or empty assignee is refused
     * with 400 before the lookup, an unknown id gives 404, otherwise 200 and the
     * complaint is assigned and in progress.
     */
    method Assign(caller: Caller, id: string, assignedTo: Option<UserId>, now: int)
      returns (code: int, updated: Option<Complaint>)
      requires Valid() && caller.role == AdminRole
      modifies this
      ensures Valid()
      ensures code != 200 ==> docs == old(docs) && updated == None
      ensures (assignedTo.None? || assignedTo == Some("")) ==> code == 400
      ensures assignedTo.Some? && assignedTo.value != "" && id !in old(docs) ==> code == 404
      ensures assignedTo.Some? && assignedTo.value != "" && id in old(docs) ==>
        code == 200 && updated == Some(AssignTo(old(docs)[id], assignedTo.value, now))
        && docs == old(docs)[id := updated.value]
    {
      if assignedTo.None? || assignedTo.value == "" {
        return 400, None;
      }
      if id !in docs {
        return 404, None;
      }
      var c := AssignTo(docs[id], assignedTo.value, now);
      AssignToKeepsValidity(docs[id], assignedTo.value, now);
      PutKeepsAllValid(docs, id, c);
      docs := docs[id := c];
      return 200, Some(c);
    }

    /**
     * `updateComplaintStatus` (admins only): a missing status or one outside the
     * four names is refused with 400 before the lookup, an unknown id gives 404,
     * otherwise 200 and the complaint has the named status.
     */
    method UpdateStatus(caller: Caller, id: string, status: Option<string>, now: int)
      returns (code: int, updated: Option<Complaint>)
      requires Valid() && caller.role == AdminRole
      modifies this
      ensures Valid()
      ensures code != 200 ==> docs == old(docs) && updated == None
      ensures (status.None? || ParseStatus(status.value).None?) ==> code == 400
      ensures status.Some? && ParseStatus(status.value).Some? && id !in old(docs) ==> code == 404
      ensures status.Some? && ParseStatus(status.value).Some? && id in old(docs) ==>
        code == 200 && updated.Some? && StatusName(updated.value.status) == status.value
        && updated == Some(WithStatus(old(docs)[id], ParseStatus(status.value).value, now))
        && docs == old(docs)[id := updated.value]
    {
      if status.None? || ParseStatus(status.value).None? {
        return 400, None;
      }
      if id !in docs {
        return 404, None;
      }
      var s := ParseStatus(status.value).value;
      var c := WithStatus(docs[id], s, now);
      WithStatusKeepsValidity(docs[id], s, now);
      PutKeepsAllValid(docs, id, c);
      docs := docs[id := c];
      return 200, Some(c);
    }
  }
}

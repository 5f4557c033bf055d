/**
 * The anecdotes app: a list of anecdotes in component state, a vote
 * handler that rebuilds the list, and `addNew`, which stamps a random id on
 * the submitted anecdote, appends it and sets the notification.
 */
module Anecdotes {
  import opened Wrappers
  import opened Seqs
  import opened Text

  datatype Anecdote = Anecdote(content: string, author: string, info: string, votes: int, id: int)

  /** What the create form submits: everything but the id. */
  datatype Submitted = Submitted(content: string, author: string, info: string, votes: int)

  function InitialAnecdotes(): seq<Anecdote> {
    [ Anecdote("If it hurts, do it more often", "Jez Humble",
               "https://martinfowler.com/bliki/FrequencyReducesDifficulty.html", 0, 1),
      Anecdote("Premature optimization is the root of all evil", "Donald Knuth",
               "http://wiki.c2.com/?PrematureOptimization", 0, 2) ]
  }

  function HasId(id: int): Anecdote -> bool {
    (a: Anecdote) => a.id == id
  }

  /** `anecdotes.find(a => a.id === id)`, as the index of the first match. */
  function FindAnecdote(xs: seq<Anecdote>, id: int): (r: Option<nat>)
    ensures r.Some? ==> r.value < |xs| && xs[r.value].id == id
    ensures r.Some? ==> forall k :: 0 <= k < r.value ==> xs[k].id != id
    ensures r.None? <==> forall k :: 0 <= k < |xs| ==> xs[k].id != id
  {
    IndexOf(xs, HasId(id))
  }

  /**
   * The list `vote(id)` stores: every anecdote with the id is replaced by
   * a copy of the first one with one more vote.
   */
  function Voted(xs: seq<Anecdote>, id: int): seq<Anecdote>
    requires FindAnecdote(xs, id).Some?
  {
    var first := xs[FindAnecdote(xs, id).value];
    seq(|xs|, k requires 0 <= k < |xs| => if xs[k].id == id then first.(votes := first.votes + 1) else xs[k])
  }

  predicate DistinctIds(xs: seq<Anecdote>) {
    forall i, j :: 0 <= i < j < |xs| ==> xs[i].id != xs[j].id
  }

  /**
   * Voting keeps length, order and every anecdote with another id, and
   * gives the first one with the id exactly one more vote, its other fields
   * unchanged. Every later anecdote with the same id becomes a copy of that
   * voted one, so only with distinct ids are all the others unchanged.
   */
  lemma VoteEffect(xs: seq<Anecdote>, id: int)
    requires FindAnecdote(xs, id).Some?
    ensures var i, r := FindAnecdote(xs, id).value, Voted(xs, id);
            && |r| == |xs|
            && r[i].votes == xs[i].votes + 1
            && r[i] == xs[i].(votes := r[i].votes)
            && (forall k :: 0 <= k < |xs| && xs[k].id != id ==> r[k] == xs[k])
            && (forall k :: 0 <= k < |xs| && xs[k].id == id ==> r[k] == r[i])
            && (DistinctIds(xs) ==> forall k :: 0 <= k < |xs| && k != i ==> r[k] == xs[k])
  {
  }

  /**
   * With a repeated id, voting overwrites the later anecdote: after the
   * random id 1 is given to a new anecdote, voting for 1 turns it into a
   * copy of the first anecdote.
   */
  lemma VoteOverwritesRepeatedId(added: Anecdote)
    requires added.id == 1 && added.content != InitialAnecdotes()[0].content
    ensures var xs := InitialAnecdotes() + [added];
            && FindAnecdote(xs, 1) == Some(0)
            && Voted(xs, 1)[|xs| - 1] == Voted(xs, 1)[0]
            && Voted(xs, 1)[|xs| - 1].content == InitialAnecdotes()[0].content != added.content
  {
    var xs := InitialAnecdotes() + [added];
    assert HasId(1)(xs[0]);
  }

  /** Voting never changes which ids are where. */
  lemma VoteKeepsIds(xs: seq<Anecdote>, id: int)
    requires FindAnecdote(xs, id).Some?
    ensures |Voted(xs, id)| == |xs|
    ensures forall k :: 0 <= k < |xs| ==> Voted(xs, id)[k].id == xs[k].id
  {
  }

  /** `Math.round(Math.random() * 10000)` lies in 0..10000. */
  predicate IsRandomId(n: int) {
    0 <= n <= 10000
  }

  class AnecdotesApp {
    var anecdotes: seq<Anecdote>
    var notification: string

    constructor ()
      ensures anecdotes == InitialAnecdotes() && notification == ""
    {
      anecdotes := InitialAnecdotes();
      notification := "";
    }

    /** `anecdoteById`: the first anecdote with the id, `undefined` when there is none. */
    function AnecdoteById(id: int): (r: Option<Anecdote>)
      reads this
      ensures r.None? <==> forall k :: 0 <= k < |anecdotes| ==> anecdotes[k].id != id
      ensures r.Some? ==>
                exists i :: 0 <= i < |anecdotes| && anecdotes[i] == r.value && r.value.id == id &&
                  forall k :: 0 <= k < i ==> anecdotes[k].id != id
    {
      match FindAnecdote(anecdotes, id)
      case None => None
      case Some(i) => Some(anecdotes[i])
    }

    /**
     * The anecdote for the route `/anecdotes/:id`: nothing when the route does
     * not match, otherwise the first anecdote with `Number(id)`.
     */
    function RouteAnecdote(param: Option<string>): (r: Option<Anecdote>)
      reads this
      ensures param.None? ==> r.None?
      ensures param.Some? && NumberOf(param.value).Some? ==> r == AnecdoteById(NumberOf(param.value).value)
      ensures param.Some? && NumberOf(param.value).None? ==> r.None?
    {
      match param
      case None => None
      case Some(p) =>
        match NumberOf(p)
        case None => None
        case Some(n) => AnecdoteById(n)
    }

    /** `vote(id)`, for an id that is in the list (otherwise `anecdote.votes` throws). */
    method Vote(id: int)
      requires FindAnecdote(anecdotes, id).Some?
      modifies this
      ensures anecdotes == Voted(old(anecdotes), id)
      ensures notification == old(notification)
    {
      var i := FindAnecdote(anecdotes, id).value;
      var voted := anecdotes[i].(votes := anecdotes[i].votes + 1);
      var before := anecdotes;
      anecdotes := seq(|before|, k requires 0 <= k < |before| => if before[k].id == id then voted else before[k]);
    }

    /**
     * `addNew`: the submitted anecdote gets the random id and goes to the end;
     * the notification names its content.
     */
    method AddNew(a: Submitted, randomId: int) returns (added: Anecdote)
      requires IsRandomId(randomId)
      modifies this
      ensures added == Anecdote(a.content, a.author, a.info, a.votes, randomId)
      ensures anecdotes == old(anecdotes) + [added]
      ensures notification == "a new anecdote " + a.content + " created!"
    {
      added := Anecdote(a.content, a.author, a.info, a.votes, randomId);
      anecdotes := anecdotes + [added];
      notification := "a new anecdote " + a.content + " created!";
    }
  }

  /** The random id is not checked against the list: it can repeat one already there. */
  lemma RandomIdMayCollide()
    ensures IsRandomId(1) && FindAnecdote(InitialAnecdotes(), 1).Some?
    ensures !DistinctIds(InitialAnecdotes() + [Anecdote("", "", "", 0, 1)])
  {
    var s := InitialAnecdotes() + [Anecdote("", "", "", 0, 1)];
    assert s[0].id == s[2].id;
    assert HasId(1)(InitialAnecdotes()[0]);
  }
}

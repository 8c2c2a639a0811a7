/** Client scenarios of the store: each assertion is proved by the verifier
    from the contracts of the handlers alone. */
module Scenarios {
  import opened Records
  import opened Festival
  import Merge

  /** Metadata with every field empty. */
  const Blank := Metadata(Text(""), Text(""), Number(0), Text(""), Text(""), Text(""), Text(""), Text(""), Text(""))

  /** A direct proposal carries the proposer's upvote; a second user's
      upvote raises the counter, the proposer's withdrawal lowers it, and the
      same IMDb id cannot be proposed again. */
  method DirectProposalAndVotes()
  {
    var store := new Store(map[]);
    var p := Payload("tt001", Blank.(tittle := Text("Alien")), [ProviderData("Netflix", "n.png")], ["Horror"]);
    var r := store.ProposeFilmToWatch(1, p, true, 100);
    assert r == Success(0);
    assert store.films[0].totalUpvotes == 1 && store.films[0].proposedBy == Some(1);
    assert store.films[0].providers == {"Netflix"} && store.films[0].genres == {"Horror"};

    var v := store.IncreaseUpVotes(2, 0);
    assert v == Success(2);
    var twice := store.IncreaseUpVotes(2, 0);
    assert twice == Failure(AlreadyVoted);

    var d := store.DeleteVote(1, 0);
    assert d == Done && store.films[0].totalUpvotes == 1;

    var again := store.ProposeFilmToWatch(3, p, true, 200);
    assert again == Failure(AlreadyProposed);
  }

  /** Deletion guards: only the proposer deletes, and never a watched film. */
  method DeletionGuards()
  {
    var store := new Store(map[]);
    var r := store.ProposeFilmToWatch(1, Payload("tt002", Blank, [], []), true, 0);
    assert r == Success(0);
    var byOther := store.DeleteProposedFilm(2, 0);
    assert byOther == Refused(Forbidden);
    var w := store.MarkAsWatched(0, 50);
    assert w == Success(50);
    var twice := store.MarkAsWatched(0, 60);
    assert twice == Failure(AlreadyWatched);
    var byOwner := store.DeleteProposedFilm(1, 0);
    assert byOwner == Refused(CannotDeleteWatched);
  }

  /** One rating per user and film. */
  method OneRating()
  {
    var store := new Store(map[]);
    var r := store.ProposeFilmToWatch(1, Payload("tt003", Blank, [], []), true, 0);
    assert r == Success(0);
    var first := store.CreateRating(2, 0, 4, true);
    assert first == Done;
    var second := store.CreateRating(2, 0, 5, true);
    assert second == Refused(AlreadyRated);
  }

  /** An event proposal creates the film without a proposer, and the
      proposal carries the proposer's vote; a closed event takes none. */
  method EventProposal()
  {
    var store := new Store(map[7 := Event(true), 8 := Event(false)]);
    var p := Payload("tt004", Blank, [], []);
    var closed := store.ProposeFilmToEvent(1, 8, p, 0);
    assert closed == Refused(ProposalsClosed);

    assert ProposalTarget(map[], 0, "tt004") == 0;
    var first := store.ProposeFilmToEvent(1, 7, p, 0);
    assert first == Done;
    assert store.eventFilms == map[0 := EventFilm(7, 0, 1, 1)];
    assert store.films[0].proposedBy == None;
  }

  /** Proposing the same film to the same event again is refused, but only
      after the film's empty fields were back-filled and its genres added. */
  method EventProposalRefusedTwice()
  {
    var store := new Store(map[7 := Event(true)]);
    assert ProposalTarget(map[], 0, "tt004") == 0;
    var first := store.ProposeFilmToEvent(1, 7, Payload("tt004", Blank, [], []), 0);
    assert first == Done && store.films[0].imdbId == "tt004";
    assert ImdbTaken(store.films, "tt004");
    assert ProposalTarget(store.films, store.nextFilmId, "tt004") == 0;
    var films := store.films;
    assert films[0].meta == Blank && films[0].genres == {};

    var fuller := Blank.(director := Text("Scott"));
    var second := store.ProposeFilmToEvent(2, 7, Payload("tt004", fuller, [], ["Sci-Fi"]), 10);
    assert second == Refused(AlreadyProposedToEvent);
    assert store.eventFilms == map[0 := EventFilm(7, 0, 1, 1)];
    assert store.films[0] == StoredProposal(films, 0, Payload("tt004", fuller, [], ["Sci-Fi"]), 10);
    assert store.films[0].meta == Merge.BackFilled(Blank, fuller);
    assert store.films[0].meta.Get(Director) == Text("Scott");
    assert store.films[0].genres == Merge.GenreNames(["Sci-Fi"]);
  }

  /** On any valid store, once an event proposal succeeds, the identical
      proposal is refused and adds no proposal and no vote. */
  method EventProposalIdempotent(s: Store, user: UserId, eventId: EventId, p: Payload, now: Time)
    requires s.Valid()
    modifies s
  {
    var first := s.ProposeFilmToEvent(user, eventId, p, now);
    if first == Done {
      var target := ProposalTarget(old(s.films), old(s.nextFilmId), p.imdbId);
      assert s.films[target].imdbId == p.imdbId;
      assert ImdbTaken(s.films, p.imdbId);
      var eventFilms, votes := s.eventFilms, s.eventFilmUpvotes;
      var second := s.ProposeFilmToEvent(user, eventId, p, now);
      assert second == Refused(AlreadyProposedToEvent);
      assert s.eventFilms == eventFilms && s.eventFilmUpvotes == votes;
    }
  }
}

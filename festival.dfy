/** The write handlers of the festival, as methods on the store they change.
    Each handler checks its guards in the source's order and answers with an
    error or applies its whole effect, except `ProposeFilmToEvent`, whose
    already-proposed refusal comes after the film's get-or-create, back-fill
    and merge, and keeps them; nothing runs concurrently. */
module Festival {
  import opened Records
  import opened Ledger
  import opened Merge
  import Queries

  /** A film as an event proposal leaves it: a new film is created from the
      payload with no proposer and no votes; an existing film is back-filled.
      Either way the payload's providers and genres are added to it. */
  function ProposedFilm(existing: Option<Film>, p: Payload, now: Time): Film
  {
    match existing
    case None =>
      Film(p.imdbId, p.meta, false, None, 0, None, Names(p.providers), GenreNames(p.genres), now)
    case Some(f) =>
      f.(meta := BackFilled(f.meta, p.meta),
         providers := f.providers + Names(p.providers),
         genres := f.genres + GenreNames(p.genres))
  }

  /** Every film's `total_upvotes` equals the number of its upvote rows. */
  ghost predicate FilmCountersMatch(films: map<FilmId, Film>, upvotes: set<(FilmId, UserId)>)
  {
    forall id :: id in films ==> films[id].totalUpvotes == Tally(upvotes, id)
  }

  /** Every event proposal's `upvote_count` equals the number of its vote rows. */
  ghost predicate EventFilmCountersMatch(eventFilms: map<EventFilmId, EventFilm>, votes: set<(EventFilmId, UserId)>)
  {
    forall e :: e in eventFilms ==> eventFilms[e].upvoteCount == Tally(votes, e)
  }

  /** Keys are handed out in increasing order: no record and no vote row
      refers to a key at or above `next`. */
  ghost predicate KeysBelow<R>(table: map<nat, R>, votes: set<(nat, UserId)>, next: nat)
  {
    && (forall id :: id in table ==> id < next)
    && (forall v :: v in votes ==> v.0 < next)
  }

  /** At most one proposal per (event, film) pair. */
  ghost predicate OneProposalPerEvent(eventFilms: map<EventFilmId, EventFilm>)
  {
    forall e, e' :: e in eventFilms && e' in eventFilms
      && eventFilms[e].event == eventFilms[e'].event && eventFilms[e].film == eventFilms[e'].film
      ==> e == e'
  }

  /** Films are associated only with providers and genres that exist, and a
      watched film has a watched date. */
  ghost predicate FilmsWellFormed(films: map<FilmId, Film>, providers: map<string, string>, genres: set<string>)
  {
    forall id :: id in films ==>
      && films[id].providers <= providers.Keys
      && films[id].genres <= genres
      && (films[id].watched ==> films[id].watchedDate.Some?)
  }

  /** A new upvote on an existing film, with its counter raised by one, keeps
      every film's counter equal to its vote rows. */
  lemma CastKeepsFilmCounters(films: map<FilmId, Film>, upvotes: set<(FilmId, UserId)>, id: FilmId, user: UserId)
    requires FilmCountersMatch(films, upvotes) && id in films && (id, user) !in upvotes
    ensures FilmCountersMatch(films[id := films[id].(totalUpvotes := films[id].totalUpvotes + 1)], upvotes + {(id, user)})
  {
    forall j | j in films {
      TallyAfterCast(upvotes, id, user, j);
    }
  }

  /** Withdrawing an upvote, with the counter lowered by one, keeps every
      film's counter equal to its vote rows, and the lowered counter is not
      negative. */
  lemma WithdrawKeepsFilmCounters(films: map<FilmId, Film>, upvotes: set<(FilmId, UserId)>, id: FilmId, user: UserId)
    requires FilmCountersMatch(films, upvotes) && id in films && (id, user) in upvotes
    ensures films[id].totalUpvotes >= 1
    ensures FilmCountersMatch(films[id := films[id].(totalUpvotes := films[id].totalUpvotes - 1)], upvotes - {(id, user)})
  {
    TallyPositive(upvotes, id, user);
    forall j | j in films {
      TallyAfterWithdraw(upvotes, id, user, j);
    }
  }

  /** Storing a film under a key no vote row mentions, with a zero counter,
      or rewriting a film without touching its counter, keeps the counters
      equal to the vote rows. */
  lemma StoreFilmKeepsCounters(films: map<FilmId, Film>, upvotes: set<(FilmId, UserId)>, id: FilmId, film: Film)
    requires FilmCountersMatch(films, upvotes)
    requires id in films ==> film.totalUpvotes == films[id].totalUpvotes
    requires id !in films ==> film.totalUpvotes == 0 && forall v :: v in upvotes ==> v.0 != id
    ensures FilmCountersMatch(films[id := film], upvotes)
  {
    if id !in films {
      TallyOfUnmentioned(upvotes, id);
    }
  }

  /** The event-proposal counterparts of the three lemmas above. */
  lemma CastKeepsEventFilmCounters(eventFilms: map<EventFilmId, EventFilm>, votes: set<(EventFilmId, UserId)>, e: EventFilmId, user: UserId)
    requires EventFilmCountersMatch(eventFilms, votes) && e in eventFilms && (e, user) !in votes
    ensures EventFilmCountersMatch(eventFilms[e := eventFilms[e].(upvoteCount := eventFilms[e].upvoteCount + 1)], votes + {(e, user)})
  {
    forall j | j in eventFilms {
      TallyAfterCast(votes, e, user, j);
    }
  }

  lemma WithdrawKeepsEventFilmCounters(eventFilms: map<EventFilmId, EventFilm>, votes: set<(EventFilmId, UserId)>, e: EventFilmId, user: UserId)
    requires EventFilmCountersMatch(eventFilms, votes) && e in eventFilms && (e, user) in votes
    ensures eventFilms[e].upvoteCount >= 1
    ensures EventFilmCountersMatch(eventFilms[e := eventFilms[e].(upvoteCount := eventFilms[e].upvoteCount - 1)], votes - {(e, user)})
  {
    TallyPositive(votes, e, user);
    forall j | j in eventFilms {
      TallyAfterWithdraw(votes, e, user, j);
    }
  }

  lemma StoreEventFilmKeepsCounters(eventFilms: map<EventFilmId, EventFilm>, votes: set<(EventFilmId, UserId)>, e: EventFilmId, ef: EventFilm)
    requires EventFilmCountersMatch(eventFilms, votes)
    requires e !in eventFilms && ef.upvoteCount == 0 && forall v :: v in votes ==> v.0 != e
    ensures EventFilmCountersMatch(eventFilms[e := ef], votes)
  {
    TallyOfUnmentioned(votes, e);
  }

  /** Storing a film whose IMDb id no other film holds keeps IMDb ids unique. */
  lemma StoreFilmKeepsImdbUnique(films: map<FilmId, Film>, id: FilmId, film: Film)
    requires ImdbUnique(films)
    requires id in films ==> film.imdbId == films[id].imdbId
    requires id !in films ==> !ImdbTaken(films, film.imdbId)
    ensures ImdbUnique(films[id := film])
  {
  }

  /** Storing a film associated only with known providers and genres, while
      the provider and genre tables only grow, keeps the films well formed. */
  lemma StoreFilmKeepsWellFormed(films: map<FilmId, Film>, providers: map<string, string>, genres: set<string>,
                                 providers': map<string, string>, genres': set<string>, id: FilmId, film: Film)
    requires FilmsWellFormed(films, providers, genres)
    requires providers.Keys <= providers'.Keys && genres <= genres'
    requires film.providers <= providers'.Keys && film.genres <= genres'
    requires film.watched ==> film.watchedDate.Some?
    ensures FilmsWellFormed(films[id := film], providers', genres')
  {
  }

  /** The invariant of the film side of the store. */
  ghost predicate FilmSide(films: map<FilmId, Film>, nextFilmId: FilmId, upvotes: set<(FilmId, UserId)>,
                           providers: map<string, string>, genres: set<string>)
  {
    && KeysBelow(films, upvotes, nextFilmId)
    && FilmCountersMatch(films, upvotes)
    && ImdbUnique(films)
    && FilmsWellFormed(films, providers, genres)
  }

  /** The invariant of the event-proposal side of the store. */
  ghost predicate EventSide(eventFilms: map<EventFilmId, EventFilm>, nextEventFilmId: EventFilmId,
                            votes: set<(EventFilmId, UserId)>)
  {
    && KeysBelow(eventFilms, votes, nextEventFilmId)
    && EventFilmCountersMatch(eventFilms, votes)
    && OneProposalPerEvent(eventFilms)
  }

  /** Storing a film, either a new one under the next key with no votes or a
      rewrite of an existing one that keeps its IMDb id and counter, while
      the provider and genre tables only grow, keeps the film side valid. */
  lemma StoreFilmKeepsFilmSide(films: map<FilmId, Film>, nextFilmId: FilmId, upvotes: set<(FilmId, UserId)>,
                               providers: map<string, string>, genres: set<string>,
                               providers': map<string, string>, genres': set<string>, id: FilmId, film: Film)
    requires FilmSide(films, nextFilmId, upvotes, providers, genres)
    requires id in films ==> film.imdbId == films[id].imdbId && film.totalUpvotes == films[id].totalUpvotes
    requires id !in films ==> id == nextFilmId && film.totalUpvotes == 0 && !ImdbTaken(films, film.imdbId)
    requires providers.Keys <= providers'.Keys && genres <= genres'
    requires film.providers <= providers'.Keys && film.genres <= genres'
    requires film.watched ==> film.watchedDate.Some?
    ensures FilmSide(films[id := film], if id in films then nextFilmId else nextFilmId + 1, upvotes, providers', genres')
  {
    StoreFilmKeepsCounters(films, upvotes, id, film);
    StoreFilmKeepsImdbUnique(films, id, film);
    StoreFilmKeepsWellFormed(films, providers, genres, providers', genres', id, film);
  }

  /** A direct proposal: a new film under the next key, carrying exactly the
      proposer's upvote, keeps the film side valid. */
  lemma ProposeKeepsFilmSide(films: map<FilmId, Film>, nextFilmId: FilmId, upvotes: set<(FilmId, UserId)>,
                             providers: map<string, string>, genres: set<string>,
                             providers': map<string, string>, genres': set<string>, film: Film, user: UserId)
    requires FilmSide(films, nextFilmId, upvotes, providers, genres)
    requires film.totalUpvotes == 1 && !ImdbTaken(films, film.imdbId)
    requires providers.Keys <= providers'.Keys && genres <= genres'
    requires film.providers <= providers'.Keys && film.genres <= genres'
    requires film.watched ==> film.watchedDate.Some?
    ensures FilmSide(films[nextFilmId := film], nextFilmId + 1, upvotes + {(nextFilmId, user)}, providers', genres')
  {
    var unvoted := film.(totalUpvotes := 0);
    StoreFilmKeepsFilmSide(films, nextFilmId, upvotes, providers, genres, providers', genres', nextFilmId, unvoted);
    CastKeepsFilmCounters(films[nextFilmId := unvoted], upvotes, nextFilmId, user);
    assert films[nextFilmId := unvoted][nextFilmId := film] == films[nextFilmId := film];
  }

  /** An event proposal: a new link under the next key, carrying exactly the
      proposer's vote, for a pair not yet linked, keeps the event side valid. */
  lemma ProposeKeepsEventSide(eventFilms: map<EventFilmId, EventFilm>, nextEventFilmId: EventFilmId,
                              votes: set<(EventFilmId, UserId)>, event: EventId, film: FilmId, user: UserId)
    requires EventSide(eventFilms, nextEventFilmId, votes)
    requires !Linked(eventFilms, event, film)
    ensures EventSide(eventFilms[nextEventFilmId := EventFilm(event, film, user, 1)], nextEventFilmId + 1,
                      votes + {(nextEventFilmId, user)})
  {
    var unvoted := EventFilm(event, film, user, 0);
    StoreEventFilmKeepsCounters(eventFilms, votes, nextEventFilmId, unvoted);
    CastKeepsEventFilmCounters(eventFilms[nextEventFilmId := unvoted], votes, nextEventFilmId, user);
    assert eventFilms[nextEventFilmId := unvoted][nextEventFilmId := EventFilm(event, film, user, 1)]
        == eventFilms[nextEventFilmId := EventFilm(event, film, user, 1)];
  }

  /** The key an event proposal's film ends up under: the film already
      holding the IMDb id, or else the next key. */
  function ProposalTarget(films: map<FilmId, Film>, nextFilmId: FilmId, imdbId: string): (r: FilmId)
    requires ImdbUnique(films)
    ensures ImdbTaken(films, imdbId) ==> r in films && films[r].imdbId == imdbId
    ensures !ImdbTaken(films, imdbId) ==> r == nextFilmId
  {
    match FilmByImdb(films, imdbId)
    case Some(id) => id
    case None => nextFilmId
  }

  /** The film an event proposal stores under its target key. */
  function StoredProposal(films: map<FilmId, Film>, id: FilmId, p: Payload, now: Time): Film
  {
    ProposedFilm(if id in films then Some(films[id]) else None, p, now)
  }

  /** The film half of an event proposal keeps the film side valid: the
      film is stored under its target key, and the provider and genre tables
      take the payload's providers and genres. */
  lemma EventProposalKeepsFilmSide(films: map<FilmId, Film>, nextFilmId: FilmId, upvotes: set<(FilmId, UserId)>,
                                   providers: map<string, string>, genres: set<string>, p: Payload, now: Time,
                                   id: FilmId, film: Film, providers': map<string, string>, genres': set<string>)
    requires FilmSide(films, nextFilmId, upvotes, providers, genres)
    requires id == ProposalTarget(films, nextFilmId, p.imdbId) && film == StoredProposal(films, id, p, now)
    requires providers' == MergeProviders(providers, p.providers) && genres' == genres + GenreNames(p.genres)
    ensures FilmSide(films[id := film], if id in films then nextFilmId else nextFilmId + 1,
                     upvotes, providers', genres')
  {
    StoreFilmKeepsFilmSide(films, nextFilmId, upvotes, providers, genres, providers', genres', id, film);
  }

  class Store {
    var films: map<FilmId, Film>
    var nextFilmId: FilmId
    var upvotes: set<(FilmId, UserId)>
    var events: map<EventId, Event>
    var eventFilms: map<EventFilmId, EventFilm>
    var nextEventFilmId: EventFilmId
    var eventFilmUpvotes: set<(EventFilmId, UserId)>
    var ratings: set<Rating>
    var providers: map<string, string>  // provider name to image URL
    var genres: set<string>

    ghost predicate Valid()
      reads this
    {
      && FilmSide(films, nextFilmId, upvotes, providers, genres)
      && EventSide(eventFilms, nextEventFilmId, eventFilmUpvotes)
      && OneRatingPerPair(ratings)
    }

    /** An empty store; the events are created by the administrators. */
    constructor (events: map<EventId, Event>)
      ensures Valid()
      ensures films == map[] && nextFilmId == 0 && upvotes == {} && this.events == events
      ensures eventFilms == map[] && nextEventFilmId == 0 && eventFilmUpvotes == {} && ratings == {}
      ensures providers == map[] && genres == {}
    {
      films, nextFilmId, upvotes := map[], 0, {};
      this.events := events;
      eventFilms, nextEventFilmId, eventFilmUpvotes := map[], 0, {};
      ratings, providers, genres := {}, map[], {};
    }

    /** `IncreaseUpVotes.post`: one upvote per user per film. */
    method IncreaseUpVotes(user: UserId, filmId: FilmId) returns (r: Result<int>)
      requires Valid()
      modifies this
      ensures Valid()
      ensures filmId !in old(films) ==> r == Failure(NotFound) && unchanged(this)
      ensures filmId in old(films) && (filmId, user) in old(upvotes) ==> r == Failure(AlreadyVoted) && unchanged(this)
      ensures filmId in old(films) && (filmId, user) !in old(upvotes) ==>
                && upvotes == old(upvotes) + {(filmId, user)}
                && films == old(films)[filmId := old(films[filmId]).(totalUpvotes := old(films[filmId].totalUpvotes) + 1)]
                && r == Success(films[filmId].totalUpvotes)
                && filmId in Queries.UserUpvotedFilms(films, upvotes, user)
      ensures nextFilmId == old(nextFilmId) && events == old(events) && eventFilms == old(eventFilms)
      ensures nextEventFilmId == old(nextEventFilmId) && eventFilmUpvotes == old(eventFilmUpvotes)
      ensures ratings == old(ratings) && providers == old(providers) && genres == old(genres)
    {
      if filmId !in films {
        return Failure(NotFound);
      }
      if (filmId, user) in upvotes {
        return Failure(AlreadyVoted);
      }
      CastKeepsFilmCounters(films, upvotes, filmId, user);
      upvotes := upvotes + {(filmId, user)};
      var film := films[filmId];
      films := films[filmId := film.(totalUpvotes := film.totalUpvotes + 1)];
      r := Success(film.totalUpvotes + 1);
    }

    /** `DeleteVote.delete`: withdraws the user's upvote. The counter is
        decremented with no floor; it stays non-negative only because it
        equals the number of vote rows. */
    method DeleteVote(user: UserId, filmId: FilmId) returns (r: Outcome)
      requires Valid()
      modifies this
      ensures Valid()
      ensures filmId !in old(films) ==> r == Refused(NotFound) && unchanged(this)
      ensures filmId in old(films) && (filmId, user) !in old(upvotes) ==> r == Refused(NotVoted) && unchanged(this)
      ensures filmId in old(films) && (filmId, user) in old(upvotes) ==>
                && r == Done
                && upvotes == old(upvotes) - {(filmId, user)}
                && films == old(films)[filmId := old(films[filmId]).(totalUpvotes := old(films[filmId].totalUpvotes) - 1)]
                && films[filmId].totalUpvotes >= 0
                && filmId !in Queries.UserUpvotedFilms(films, upvotes, user)
      ensures nextFilmId == old(nextFilmId) && events == old(events) && eventFilms == old(eventFilms)
      ensures nextEventFilmId == old(nextEventFilmId) && eventFilmUpvotes == old(eventFilmUpvotes)
      ensures ratings == old(ratings) && providers == old(providers) && genres == old(genres)
    {
      if filmId !in films {
        return Refused(NotFound);
      }
      if (filmId, user) !in upvotes {
        return Refused(NotVoted);
      }
      WithdrawKeepsFilmCounters(films, upvotes, filmId, user);
      upvotes := upvotes - {(filmId, user)};
      var film := films[filmId];
      films := films[filmId := film.(totalUpvotes := film.totalUpvotes - 1)];
      r := Done;
    }

    /** `DeleteProposedFilm.delete`: only the proposer may delete a film, and
        never once it is watched. Only the film row is removed here. */
    method DeleteProposedFilm(user: UserId, filmId: FilmId) returns (r: Outcome)
      requires Valid()
      modifies this
      ensures Valid()
      ensures filmId !in old(films) ==> r == Refused(NotFound)
      ensures filmId in old(films) && old(films[filmId]).watched ==> r == Refused(CannotDeleteWatched)
      ensures filmId in old(films) && !old(films[filmId]).watched && old(films[filmId]).proposedBy != Some(user) ==>
                r == Refused(Forbidden)
      ensures r == Done <==>
                filmId in old(films) && !old(films[filmId]).watched && old(films[filmId]).proposedBy == Some(user)
      ensures r == Done ==> films == old(films) - {filmId}
      ensures r != Done ==> unchanged(this)
      ensures nextFilmId == old(nextFilmId) && upvotes == old(upvotes) && events == old(events)
      ensures eventFilms == old(eventFilms) && nextEventFilmId == old(nextEventFilmId)
      ensures eventFilmUpvotes == old(eventFilmUpvotes)
      ensures ratings == old(ratings) && providers == old(providers) && genres == old(genres)
    {
      if filmId !in films {
        return Refused(NotFound);
      }
      var film := films[filmId];
      if film.watched {
        return Refused(CannotDeleteWatched);
      }
      if film.proposedBy != Some(user) {
        return Refused(Forbidden);
      }
      films := films - {filmId};
      r := Done;
    }

    /** `MarkAsWatched.post`: a film is marked watched once, at time `now`.
        The film is fetched with a plain get, so a missing film is an
        unhandled error rather than a 404. */
    method MarkAsWatched(filmId: FilmId, now: Time) returns (r: Result<Time>)
      requires Valid()
      modifies this
      ensures Valid()
      ensures filmId !in old(films) ==> r == Failure(DoesNotExist) && unchanged(this)
      ensures filmId in old(films) && old(films[filmId]).watched ==> r == Failure(AlreadyWatched) && unchanged(this)
      ensures filmId in old(films) && !old(films[filmId]).watched ==>
                && r == Success(now)
                && films == old(films)[filmId := old(films[filmId]).(watched := true, watchedDate := Some(now))]
                && filmId !in Queries.FilmsToWatch(films, [])
                && filmId in Queries.FilmsWatched(films)
      ensures nextFilmId == old(nextFilmId) && upvotes == old(upvotes) && events == old(events)
      ensures eventFilms == old(eventFilms) && nextEventFilmId == old(nextEventFilmId)
      ensures eventFilmUpvotes == old(eventFilmUpvotes)
      ensures ratings == old(ratings) && providers == old(providers) && genres == old(genres)
    {
      if filmId !in films {
        return Failure(DoesNotExist);
      }
      var film := films[filmId];
      if film.watched {
        return Failure(AlreadyWatched);
      }
      films := films[filmId := film.(watched := true, watchedDate := Some(now))];
      r := Success(now);
    }

    /** `RatingCreate.post`: one rating per user per film. `valid` is the
        verdict of the rating serializer on the request. */
    method CreateRating(user: UserId, filmId: FilmId, stars: int, valid: bool) returns (r: Outcome)
      requires Valid()
      modifies this
      ensures Valid()
      ensures filmId !in old(films) ==> r == Refused(NotFound)
      ensures filmId in old(films) && HasRated(old(ratings), filmId, user) ==> r == Refused(AlreadyRated)
      ensures filmId in old(films) && !HasRated(old(ratings), filmId, user) && !valid ==> r == Refused(InvalidData)
      ensures r == Done <==> filmId in old(films) && !HasRated(old(ratings), filmId, user) && valid
      ensures r == Done ==> ratings == old(ratings) + {Rating(filmId, user, stars)}
      ensures r == Done ==> filmId in Queries.UserRatedFilms(films, ratings, user)
      ensures r != Done ==> unchanged(this)
      ensures films == old(films) && nextFilmId == old(nextFilmId) && upvotes == old(upvotes)
      ensures events == old(events) && eventFilms == old(eventFilms)
      ensures nextEventFilmId == old(nextEventFilmId) && eventFilmUpvotes == old(eventFilmUpvotes)
      ensures providers == old(providers) && genres == old(genres)
    {
      if filmId !in films {
        return Refused(NotFound);
      }
      if HasRated(ratings, filmId, user) {
        return Refused(AlreadyRated);
      }
      if !valid {
        return Refused(InvalidData);
      }
      ratings := ratings + {Rating(filmId, user, stars)};
      r := Done;
    }

    /** `FilmsToWatchList.post`: a direct proposal. A film whose IMDb id is
        already stored is refused, never merged. The new film belongs to the
        proposer and carries the proposer's upvote. `valid` is the verdict of
        the film serializer on the request. */
    method ProposeFilmToWatch(user: UserId, p: Payload, valid: bool, now: Time) returns (r: Result<FilmId>)
      requires Valid()
      modifies this
      ensures Valid()
      ensures !valid ==> r == Failure(InvalidData)
      ensures valid && p.imdbId == "" ==> r == Failure(MissingImdbId)
      ensures valid && p.imdbId != "" && ImdbTaken(old(films), p.imdbId) ==> r == Failure(AlreadyProposed)
      ensures r.Failure? ==> unchanged(this)
      ensures r.Success? <==> valid && p.imdbId != "" && !ImdbTaken(old(films), p.imdbId)
      ensures r.Success? ==>
                && r.value == old(nextFilmId)
                && nextFilmId == old(nextFilmId) + 1
                && films == old(films)[r.value := Film(p.imdbId, p.meta, false, None, 1, Some(user),
                                                       Names(p.providers), GenreNames(p.genres), now)]
                && upvotes == old(upvotes) + {(r.value, user)}
                && providers == MergeProviders(old(providers), p.providers)
                && genres == old(genres) + GenreNames(p.genres)
      ensures events == old(events) && eventFilms == old(eventFilms)
      ensures nextEventFilmId == old(nextEventFilmId) && eventFilmUpvotes == old(eventFilmUpvotes)
      ensures ratings == old(ratings)
    {
      if !valid {
        return Failure(InvalidData);
      }
      if p.imdbId == "" {
        return Failure(MissingImdbId);
      }
      if ImdbTaken(films, p.imdbId) {
        return Failure(AlreadyProposed);
      }
      // serializer.save(proposed_by=user), then the provider and genre loops
      var id := nextFilmId;
      var film := Film(p.imdbId, p.meta, false, None, 0, Some(user), {}, {}, now);
      var providers', filmProviders := GetOrCreateProviders(providers, film.providers, p.providers);
      var genres', filmGenres := GetOrCreateGenres(genres, film.genres, p.genres);
      film := film.(providers := filmProviders, genres := filmGenres);
      film := film.(totalUpvotes := film.totalUpvotes + 1);  // the proposer's own upvote
      assert film == Film(p.imdbId, p.meta, false, None, 1, Some(user), Names(p.providers), GenreNames(p.genres), now);
      ProposeKeepsFilmSide(films, nextFilmId, upvotes, providers, genres, providers', genres', film, user);
      films, nextFilmId, upvotes := films[id := film], nextFilmId + 1, upvotes + {(id, user)};
      providers, genres := providers', genres';
      r := Success(id);
    }

    /** The film half of `ProposeFilmView.post`: the film is fetched by IMDb
        id or created from the payload with no proposer, and an existing film
        is back-filled; then the payload's providers and genres are attached. */
    method GetOrCreateProposedFilm(p: Payload, now: Time) returns (filmId: FilmId)
      requires Valid()
      modifies this
      ensures Valid()
      ensures filmId == ProposalTarget(old(films), old(nextFilmId), p.imdbId)
      ensures nextFilmId == old(nextFilmId) + (if ImdbTaken(old(films), p.imdbId) then 0 else 1)
      ensures films == old(films)[filmId := StoredProposal(old(films), filmId, p, now)]
      ensures providers == MergeProviders(old(providers), p.providers)
      ensures genres == old(genres) + GenreNames(p.genres)
      ensures upvotes == old(upvotes) && events == old(events) && ratings == old(ratings)
      ensures eventFilms == old(eventFilms) && nextEventFilmId == old(nextEventFilmId)
      ensures eventFilmUpvotes == old(eventFilmUpvotes)
    {
      // Film.objects.get_or_create(imdb_id=...), then the back-fill
      var found := FilmByImdb(films, p.imdbId);
      if found.None? {
        filmId := nextFilmId;
        AttachAndStore(filmId, Film(p.imdbId, p.meta, false, None, 0, None, {}, {}, now), p, now);
      } else {
        filmId := found.value;
        var film := films[filmId];
        var merged, updated := BackFillFields(film.meta, p.meta);
        if updated != [] {
          film := film.(meta := merged);
        } else {
          assert forall f :: f !in updated;
          BackFillNoOp(film.meta, p.meta);
        }
        AttachAndStore(filmId, film, p, now);
      }
    }

    /** The provider and genre loops of `ProposeFilmView.post`, then the
        store of the film: `film` is the fetched or created film, and it ends
        up as the proposal's film under the target key. */
    method AttachAndStore(filmId: FilmId, film: Film, p: Payload, now: Time)
      requires Valid()
      requires filmId == ProposalTarget(films, nextFilmId, p.imdbId)
      requires film.(providers := film.providers + Names(p.providers), genres := film.genres + GenreNames(p.genres))
               == StoredProposal(films, filmId, p, now)
      modifies this
      ensures Valid()
      ensures nextFilmId == if filmId in old(films) then old(nextFilmId) else old(nextFilmId) + 1
      ensures films == old(films)[filmId := StoredProposal(old(films), filmId, p, now)]
      ensures providers == MergeProviders(old(providers), p.providers)
      ensures genres == old(genres) + GenreNames(p.genres)
      ensures upvotes == old(upvotes) && events == old(events) && ratings == old(ratings)
      ensures eventFilms == old(eventFilms) && nextEventFilmId == old(nextEventFilmId)
      ensures eventFilmUpvotes == old(eventFilmUpvotes)
    {
      var providers', filmProviders := GetOrCreateProviders(providers, film.providers, p.providers);
      var genres', filmGenres := GetOrCreateGenres(genres, film.genres, p.genres);
      var stored := film.(providers := filmProviders, genres := filmGenres);
      EventProposalKeepsFilmSide(films, nextFilmId, upvotes, providers, genres, p, now,
                                 filmId, stored, providers', genres');
      films, nextFilmId := films[filmId := stored], if filmId in films then nextFilmId else nextFilmId + 1;
      providers, genres := providers', genres';
    }

    /** `ProposeFilmView.post`: proposes a film for an event. The film is
        fetched or created by IMDb id, back-filled and given the payload's
        providers and genres before the existing-proposal check, so a refused
        duplicate still leaves those changes behind. The new proposal belongs
        to the proposer and carries the proposer's vote. */
    method ProposeFilmToEvent(user: UserId, eventId: EventId, p: Payload, now: Time) returns (r: Outcome)
      requires Valid()
      modifies this
      ensures Valid()
      ensures eventId !in old(events) ==> r == Refused(NotFound) && unchanged(this)
      ensures eventId in old(events) && !old(events[eventId]).allowProposals ==> r == Refused(ProposalsClosed) && unchanged(this)
      ensures eventId in old(events) && old(events[eventId]).allowProposals && p.imdbId == "" ==>
                r == Refused(MissingImdbId) && unchanged(this)
      ensures eventId in old(events) && old(events[eventId]).allowProposals && p.imdbId != "" ==>
                var target := ProposalTarget(old(films), old(nextFilmId), p.imdbId);
                && nextFilmId == old(nextFilmId) + (if ImdbTaken(old(films), p.imdbId) then 0 else 1)
                && films == old(films)[target := StoredProposal(old(films), target, p, now)]
                && providers == MergeProviders(old(providers), p.providers)
                && genres == old(genres) + GenreNames(p.genres)
                && (r == Refused(AlreadyProposedToEvent) <==> Linked(old(eventFilms), eventId, target))
                && (r == Done <==> !Linked(old(eventFilms), eventId, target))
                && (r == Done ==>
                      && eventFilms == old(eventFilms)[old(nextEventFilmId) := EventFilm(eventId, target, user, 1)]
                      && nextEventFilmId == old(nextEventFilmId) + 1
                      && eventFilmUpvotes == old(eventFilmUpvotes) + {(old(nextEventFilmId), user)}
                      && Linked(eventFilms, eventId, target))
                && (r != Done ==>
                      && eventFilms == old(eventFilms) && nextEventFilmId == old(nextEventFilmId)
                      && eventFilmUpvotes == old(eventFilmUpvotes))
      ensures upvotes == old(upvotes) && events == old(events) && ratings == old(ratings)
    {
      if eventId !in events {
        return Refused(NotFound);
      }
      if !events[eventId].allowProposals {
        return Refused(ProposalsClosed);
      }
      if p.imdbId == "" {
        return Refused(MissingImdbId);
      }
      var filmId := GetOrCreateProposedFilm(p, now);
      if Linked(eventFilms, eventId, filmId) {
        return Refused(AlreadyProposedToEvent);
      }
      // get_or_create of the proposal and of the proposer's vote: the check
      // above leaves only the creates, and a new proposal has no votes, so
      // the counter is raised once.
      var efId := nextEventFilmId;
      assert (efId, user) !in eventFilmUpvotes;
      ProposeKeepsEventSide(eventFilms, nextEventFilmId, eventFilmUpvotes, eventId, filmId, user);
      eventFilms := eventFilms[efId := EventFilm(eventId, filmId, user, 1)];
      nextEventFilmId := nextEventFilmId + 1;
      eventFilmUpvotes := eventFilmUpvotes + {(efId, user)};
      assert eventFilms[efId].event == eventId && eventFilms[efId].film == filmId;
      r := Done;
    }

    /** `DeleteEventFilmProposal.delete`: only the proposer may withdraw an
        event proposal; the film itself stays. */
    method DeleteEventFilmProposal(user: UserId, efId: EventFilmId) returns (r: Outcome)
      requires Valid()
      modifies this
      ensures Valid()
      ensures efId !in old(eventFilms) ==> r == Refused(NotFound)
      ensures efId in old(eventFilms) && old(eventFilms[efId]).proposedBy != user ==> r == Refused(Forbidden)
      ensures r == Done <==> efId in old(eventFilms) && old(eventFilms[efId]).proposedBy == user
      ensures r == Done ==> eventFilms == old(eventFilms) - {efId}
      ensures r != Done ==> unchanged(this)
      ensures films == old(films) && nextFilmId == old(nextFilmId) && upvotes == old(upvotes)
      ensures events == old(events) && nextEventFilmId == old(nextEventFilmId)
      ensures eventFilmUpvotes == old(eventFilmUpvotes)
      ensures ratings == old(ratings) && providers == old(providers) && genres == old(genres)
    {
      if efId !in eventFilms {
        return Refused(NotFound);
      }
      if eventFilms[efId].proposedBy != user {
        return Refused(Forbidden);
      }
      eventFilms := eventFilms - {efId};
      r := Done;
    }

    /** `EventFilmUpVote.post`: one vote per user per event proposal. */
    method EventFilmUpVote(user: UserId, efId: EventFilmId) returns (r: Result<int>)
      requires Valid()
      modifies this
      ensures Valid()
      ensures efId !in old(eventFilms) ==> r == Failure(NotFound) && unchanged(this)
      ensures efId in old(eventFilms) && (efId, user) in old(eventFilmUpvotes) ==> r == Failure(AlreadyVoted) && unchanged(this)
      ensures efId in old(eventFilms) && (efId, user) !in old(eventFilmUpvotes) ==>
                && eventFilmUpvotes == old(eventFilmUpvotes) + {(efId, user)}
                && eventFilms == old(eventFilms)[efId := old(eventFilms[efId]).(upvoteCount := old(eventFilms[efId].upvoteCount) + 1)]
                && r == Success(eventFilms[efId].upvoteCount)
      ensures films == old(films) && nextFilmId == old(nextFilmId) && upvotes == old(upvotes)
      ensures events == old(events) && nextEventFilmId == old(nextEventFilmId)
      ensures ratings == old(ratings) && providers == old(providers) && genres == old(genres)
    {
      if efId !in eventFilms {
        return Failure(NotFound);
      }
      if (efId, user) in eventFilmUpvotes {
        return Failure(AlreadyVoted);
      }
      CastKeepsEventFilmCounters(eventFilms, eventFilmUpvotes, efId, user);
      eventFilmUpvotes := eventFilmUpvotes + {(efId, user)};
      var ef := eventFilms[efId];
      eventFilms := eventFilms[efId := ef.(upvoteCount := ef.upvoteCount + 1)];
      r := Success(ef.upvoteCount + 1);
    }

    /** `EventFilmUpVote.delete`: withdraws the user's vote on an event
        proposal. The counter is decremented only while positive; since it
        equals the number of vote rows, it always is. */
    method EventFilmDeleteVote(user: UserId, efId: EventFilmId) returns (r: Outcome)
      requires Valid()
      modifies this
      ensures Valid()
      ensures efId !in old(eventFilms) ==> r == Refused(NotFound) && unchanged(this)
      ensures efId in old(eventFilms) && (efId, user) !in old(eventFilmUpvotes) ==> r == Refused(NotVoted) && unchanged(this)
      ensures efId in old(eventFilms) && (efId, user) in old(eventFilmUpvotes) ==>
                && r == Done
                && eventFilmUpvotes == old(eventFilmUpvotes) - {(efId, user)}
                && eventFilms == old(eventFilms)[efId := old(eventFilms[efId]).(upvoteCount := old(eventFilms[efId].upvoteCount) - 1)]
                && eventFilms[efId].upvoteCount >= 0
      ensures films == old(films) && nextFilmId == old(nextFilmId) && upvotes == old(upvotes)
      ensures events == old(events) && nextEventFilmId == old(nextEventFilmId)
      ensures ratings == old(ratings) && providers == old(providers) && genres == old(genres)
    {
      if efId !in eventFilms {
        return Refused(NotFound);
      }
      if (efId, user) !in eventFilmUpvotes {
        return Refused(NotVoted);
      }
      WithdrawKeepsEventFilmCounters(eventFilms, eventFilmUpvotes, efId, user);
      eventFilmUpvotes := eventFilmUpvotes - {(efId, user)};
      var ef := eventFilms[efId];
      if ef.upvoteCount > 0 {
        eventFilms := eventFilms[efId := ef.(upvoteCount := ef.upvoteCount - 1)];
      }
      r := Done;
    }
  }
}

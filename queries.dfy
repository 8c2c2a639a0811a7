/** The read side: the lists the festival serves, as filters and orderings
    over the stored films, votes and ratings. */
module Queries {
  import opened Records

  /** The two orderings the lists use. */
  datatype Order =
    | ByVotesThenCreated  // most upvoted first, then oldest first
    | ByWatchedDateDesc   // most recently watched first

  /** The sort key of a film; smaller keys are listed first. A watched film
      without a date is keyed before every dated one. */
  function Key(order: Order, f: Film): (int, int)
  {
    match order
    case ByVotesThenCreated => (-f.totalUpvotes, f.created)
    case ByWatchedDateDesc =>
      match f.watchedDate
      case None => (0, 0)
      case Some(d) => (1, -d)
  }

  /** Film `a` may be listed before film `b`: its key is smaller, or the keys
      are equal and its id is not larger. This is a total order on ids. */
  predicate Precedes(films: map<FilmId, Film>, order: Order, a: FilmId, b: FilmId)
    requires a in films && b in films
  {
    var ka, kb := Key(order, films[a]), Key(order, films[b]);
    ka.0 < kb.0 || (ka.0 == kb.0 && (ka.1 < kb.1 || (ka.1 == kb.1 && a <= b)))
  }

  /** Any two films are comparable. */
  lemma PrecedesTotal(films: map<FilmId, Film>, order: Order, a: FilmId, b: FilmId)
    requires a in films && b in films
    ensures Precedes(films, order, a, b) || Precedes(films, order, b, a)
  {
  }

  lemma PrecedesTransitive(films: map<FilmId, Film>, order: Order, a: FilmId, b: FilmId, c: FilmId)
    requires a in films && b in films && c in films
    requires Precedes(films, order, a, b) && Precedes(films, order, b, c)
    ensures Precedes(films, order, a, c)
  {
  }

  /** Every non-empty set of films has a first film under any order. */
  lemma {:induction false} FirstExists(films: map<FilmId, Film>, order: Order, s: set<FilmId>)
    requires s != {} && s <= films.Keys
    ensures exists m :: m in s && forall y :: y in s ==> Precedes(films, order, m, y)
    decreases s
  {
    var x :| x in s;
    if s == {x} {
      assert forall y :: y in s ==> y == x;
      assert Precedes(films, order, x, x);
    } else {
      FirstExists(films, order, s - {x});
      var m :| m in s - {x} && forall y :: y in s - {x} ==> Precedes(films, order, m, y);
      PrecedesTotal(films, order, m, x);
      if Precedes(films, order, m, x) {
        assert forall y :: y in s ==> Precedes(films, order, m, y);
      } else {
        forall y | y in s ensures Precedes(films, order, x, y) {
          if y != x {
            PrecedesTransitive(films, order, x, m, y);
          }
        }
      }
    }
  }

  /** The films of `s`, each once, listed in the given order. */
  function SortBy(films: map<FilmId, Film>, order: Order, s: set<FilmId>): (r: seq<FilmId>)
    requires s <= films.Keys
    ensures |r| == |s|
    ensures forall id :: id in r <==> id in s
    ensures forall i, j :: 0 <= i < j < |r| ==> r[i] != r[j]
    ensures forall i, j :: 0 <= i < j < |r| ==> r[i] in films && r[j] in films && Precedes(films, order, r[i], r[j])
    decreases s
  {
    if s == {} then []
    else
      FirstExists(films, order, s);
      var m :| m in s && forall y :: y in s ==> Precedes(films, order, m, y);
      [m] + SortBy(films, order, s - {m})
  }

  /** A to-watch film passes the genre filter: no genre was asked for, or it
      has one of the genres asked for. */
  predicate GenreMatch(f: Film, filter: seq<string>)
  {
    filter == [] || exists g :: g in filter && g in f.genres
  }

  /** The to-watch list: exactly the unwatched films that pass the genre
      filter, each once, most upvoted first and, among equally upvoted films,
      the earliest created first. */
  function FilmsToWatch(films: map<FilmId, Film>, filter: seq<string>): (r: seq<FilmId>)
    ensures forall id :: id in r <==> id in films && !films[id].watched && GenreMatch(films[id], filter)
    ensures forall i, j :: 0 <= i < j < |r| ==> r[i] != r[j]
    ensures forall i, j :: 0 <= i < j < |r| ==>
              r[i] in films && r[j] in films &&
              (films[r[i]].totalUpvotes > films[r[j]].totalUpvotes ||
               (films[r[i]].totalUpvotes == films[r[j]].totalUpvotes && films[r[i]].created <= films[r[j]].created))
  {
    SortBy(films, ByVotesThenCreated, set id | id in films && !films[id].watched && GenreMatch(films[id], filter))
  }

  /** An unwatched film is on the unfiltered to-watch list. */
  lemma UnwatchedIsListed(films: map<FilmId, Film>, id: FilmId)
    requires id in films && !films[id].watched
    ensures id in FilmsToWatch(films, [])
  {
  }

  /** The watched list: exactly the watched films, each once, the most
      recently watched first. */
  function FilmsWatched(films: map<FilmId, Film>): (r: seq<FilmId>)
    ensures forall id :: id in r <==> id in films && films[id].watched
    ensures forall i, j :: 0 <= i < j < |r| ==> r[i] != r[j]
    ensures forall i, j :: 0 <= i < j < |r| ==>
              r[i] in films && r[j] in films &&
              (films[r[i]].watchedDate.Some? && films[r[j]].watchedDate.Some? ==>
                 films[r[i]].watchedDate.value >= films[r[j]].watchedDate.value)
  {
    SortBy(films, ByWatchedDateDesc, set id | id in films && films[id].watched)
  }

  /** The films the user has rated (no order is imposed). */
  function UserRatedFilms(films: map<FilmId, Film>, ratings: set<Rating>, user: UserId): (r: set<FilmId>)
    ensures forall id :: id in r <==> id in films && HasRated(ratings, id, user)
  {
    set rating | rating in ratings && rating.user == user && rating.film in films :: rating.film
  }

  /** The films the user has upvoted (no order is imposed). */
  function UserUpvotedFilms(films: map<FilmId, Film>, upvotes: set<(FilmId, UserId)>, user: UserId): (r: set<FilmId>)
    ensures forall id :: id in r <==> id in films && (id, user) in upvotes
  {
    set p | p in upvotes && p.1 == user && p.0 in films :: p.0
  }
}

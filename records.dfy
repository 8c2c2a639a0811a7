/** The records of the festival: films, events, event proposals and ratings,
    the payload a proposal carries, and the errors the handlers return. */
module Records {

  /** Primary keys. The store hands them out in increasing order. */
  type FilmId = nat
  type EventId = nat
  type EventFilmId = nat
  type UserId = nat

  /** A timestamp, supplied by the caller in place of the server clock. */
  type Time = int

  /** A metadata value as the request carries it. `year` is a number, every
      other field text; Python truthiness makes "" and 0 the empty values. */
  datatype Value = Text(s: string) | Number(n: int)
  {
    predicate Truthy()
    {
      match this
      case Text(s) => s != ""
      case Number(n) => n != 0
    }
  }

  /** The nine scalar metadata fields the event proposal back-fills. */
  datatype Field = Tittle | Description | Year | Runtime | Image | Director | Actors | ImdbRating | ImdbVotes

  /** The metadata fields, in the order the back-fill visits them. */
  const MergeFields: seq<Field> := [Tittle, Description, Year, Runtime, Image, Director, Actors, ImdbRating, ImdbVotes]

  /** The field list names every metadata field. */
  lemma EveryFieldMerged(f: Field)
    ensures f in MergeFields
  {
    match f
    case Tittle => assert MergeFields[0] == f;
    case Description => assert MergeFields[1] == f;
    case Year => assert MergeFields[2] == f;
    case Runtime => assert MergeFields[3] == f;
    case Image => assert MergeFields[4] == f;
    case Director => assert MergeFields[5] == f;
    case Actors => assert MergeFields[6] == f;
    case ImdbRating => assert MergeFields[7] == f;
    case ImdbVotes => assert MergeFields[8] == f;
  }

  datatype Metadata = Metadata(
    tittle: Value, description: Value, year: Value, runtime: Value, image: Value,
    director: Value, actors: Value, imdbRating: Value, imdbVotes: Value)
  {
    /** The value of field `f` (Python's getattr). */
    function Get(f: Field): Value
    {
      match f
      case Tittle => tittle
      case Description => description
      case Year => year
      case Runtime => runtime
      case Image => image
      case Director => director
      case Actors => actors
      case ImdbRating => imdbRating
      case ImdbVotes => imdbVotes
    }

    /** This metadata with field `f` set to `v` (Python's setattr). */
    function Set(f: Field, v: Value): (r: Metadata)
      ensures r.Get(f) == v
      ensures forall g :: g != f ==> r.Get(g) == Get(g)
    {
      match f
      case Tittle => this.(tittle := v)
      case Description => this.(description := v)
      case Year => this.(year := v)
      case Runtime => this.(runtime := v)
      case Image => this.(image := v)
      case Director => this.(director := v)
      case Actors => this.(actors := v)
      case ImdbRating => this.(imdbRating := v)
      case ImdbVotes => this.(imdbVotes := v)
    }
  }

  /** Two metadata records that agree on every field are equal. */
  lemma MetadataExtensional(a: Metadata, b: Metadata)
    requires forall f :: a.Get(f) == b.Get(f)
    ensures a == b
  {
    assert a.Get(Tittle) == b.Get(Tittle) && a.Get(Description) == b.Get(Description);
    assert a.Get(Year) == b.Get(Year) && a.Get(Runtime) == b.Get(Runtime);
    assert a.Get(Image) == b.Get(Image) && a.Get(Director) == b.Get(Director);
    assert a.Get(Actors) == b.Get(Actors) && a.Get(ImdbRating) == b.Get(ImdbRating);
    assert a.Get(ImdbVotes) == b.Get(ImdbVotes);
  }

  /** A streaming provider as a proposal names it. */
  datatype ProviderData = ProviderData(name: string, imageUrl: string)

  /** What a proposal request carries. A field the request leaves out is
      given as its empty value ("" or 0). */
  datatype Payload = Payload(
    imdbId: string, meta: Metadata, providers: seq<ProviderData>, genres: seq<string>)

  datatype Film = Film(
    imdbId: string,
    meta: Metadata,
    watched: bool,
    watchedDate: Option<Time>,
    totalUpvotes: int,
    proposedBy: Option<UserId>,
    providers: set<string>,
    genres: set<string>,
    created: Time)

  datatype Event = Event(allowProposals: bool)

  /** A film proposed for one event, with its own proposer and vote counter. */
  datatype EventFilm = EventFilm(event: EventId, film: FilmId, proposedBy: UserId, upvoteCount: int)

  datatype Rating = Rating(film: FilmId, user: UserId, stars: int)

  datatype Option<T> = None | Some(value: T)

  /** What a handler answers instead of its HTTP error response. */
  datatype Error =
    | NotFound                // get_object_or_404 found no row: 404
    | DoesNotExist            // Film.objects.get raised: an unhandled 500
    | InvalidData             // serializer validation failed: 400
    | MissingImdbId           // 400
    | AlreadyProposed         // a film with this IMDb id exists: 400
    | AlreadyProposedToEvent  // the film is already linked to the event: 400
    | ProposalsClosed         // the event does not take proposals: 403
    | CannotDeleteWatched     // 400
    | Forbidden               // requester is not the proposer: 403
    | AlreadyVoted            // 400
    | NotVoted                // 400
    | AlreadyRated            // 400
    | AlreadyWatched          // 400

  datatype Result<T> = Success(value: T) | Failure(error: Error)

  datatype Outcome = Done | Refused(error: Error)

  /** No two films share an IMDb id. */
  ghost predicate ImdbUnique(films: map<FilmId, Film>)
  {
    forall i, j :: i in films && j in films && films[i].imdbId == films[j].imdbId ==> i == j
  }

  /** Some film carries this IMDb id (`Film.objects.filter(imdb_id=...).exists()`). */
  predicate ImdbTaken(films: map<FilmId, Film>, imdbId: string)
  {
    exists id :: id in films && films[id].imdbId == imdbId
  }

  /** The film with the given IMDb id, looked up by its unique key. */
  function FilmByImdb(films: map<FilmId, Film>, imdbId: string): (r: Option<FilmId>)
    requires ImdbUnique(films)
    ensures r.Some? <==> ImdbTaken(films, imdbId)
    ensures r.Some? ==> r.value in films && films[r.value].imdbId == imdbId
  {
    if ImdbTaken(films, imdbId) then
      var id :| id in films && films[id].imdbId == imdbId; Some(id)
    else
      None
  }

  /** The event proposal linking `event` and `film`, if there is one. */
  predicate Linked(eventFilms: map<EventFilmId, EventFilm>, event: EventId, film: FilmId)
  {
    exists e :: e in eventFilms && eventFilms[e].event == event && eventFilms[e].film == film
  }

  /** At most one rating per (film, user) pair. */
  ghost predicate OneRatingPerPair(ratings: set<Rating>)
  {
    forall a, b :: a in ratings && b in ratings && a.film == b.film && a.user == b.user ==> a == b
  }

  /** The user has rated the film. */
  predicate HasRated(ratings: set<Rating>, film: FilmId, user: UserId)
  {
    exists r :: r in ratings && r.film == film && r.user == user
  }
}

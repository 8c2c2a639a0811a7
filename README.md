# Film festival: proposals and votes

This project models the write and read handlers of the film festival's web
API (`film_festival/views.py`). It covers the store those handlers work on:

- films, with their metadata, watched flag and date, cached upvote counter and proposer;
- film upvotes;
- events that do or do not take proposals;
- event proposals, with their own proposer and cached vote counter;
- votes on event proposals;
- ratings;
- the provider and genre tables.

The store is the class `Festival.Store`. Its fields are maps and sets, and each
handler is a method that checks its guards in the source's order. It answers
with an error (`Records.Error`, standing for the HTTP error response) or
applies its whole effect, except `ProposeFilmToEvent`, whose already-proposed
refusal comes after the film's get-or-create, back-fill and merge of
providers and genres, and keeps them. Every method keeps the store invariant
`Store.Valid()`:

- every cached counter equals the number of vote rows backing it
  (`Ledger.Tally`);
- IMDb ids are unique;
- there is at most one proposal per (event, film) pair and at most one rating
  per (film, user) pair;
- films are associated only with providers and genres that exist, and a
  watched film has a date;
- keys are handed out in increasing order, so a vote row left behind by a
  deletion never attaches to a later record.

The modules:

- `Ledger`: vote rows as (subject, user) pairs, and how a cast or a withdrawal moves the tally.
- `Records`: the entities, the payload a proposal carries, the errors, and the lookups by IMDb id.
- `Merge`: the event proposal's back-fill of empty metadata fields, as a declarative per-field table and as the loop over the field list. Also the get-or-create loops for providers and genres.
- `Queries`: the read-side lists, as filters and orderings over the store.
- `Festival`: the store, its invariant, the lemmas that each kind of update preserves it, and the handlers.
- `Scenarios`: client scenarios whose assertions the verifier proves from the contracts of the handlers alone.

Where the handlers behave differently from what a reader might expect, the model follows the code:

- Withdrawing a film upvote decrements the counter with no floor at zero. The invariant proves it non-negative anyway.
- Deleting a watched film is answered with 400 (`CannotDeleteWatched`), not 403.
- Marking a film that does not exist as watched is an unhandled lookup error (`DoesNotExist`), not a 404.
- The handlers run no transaction; each is modelled as one atomic step.

A request field that is absent is given as its empty value (`""` or `0`).
Python treats both as falsy, so this matches both the creation defaults and the
back-fill's `request.data.get(field)`. The request clock and the creation
timestamp are the parameter `now`. The verdict of a serializer's validation is
the boolean parameter `valid`.

## Model

| member | source | states |
|---|---|---|
| `Ledger.TallyAfterCast` | film_festival/views.py:156-158 | a new vote row on a subject raises that subject's tally by exactly one and leaves every other tally unchanged |
| `Ledger.TallyAfterWithdraw` | film_festival/views.py:41-42 | removing an existing vote row lowers that subject's tally by exactly one and leaves every other tally unchanged |
| `Ledger.TallyPositive` | film_festival/views.py:341-342 | a subject holding a vote row has a tally of at least one, so a counter equal to it can be decremented without going negative |
| `Ledger.TallyOfUnmentioned` | film_festival/views.py:75 | a freshly created record, which no vote row mentions, has a tally of zero, matching its zero counter |
| `Records.EveryFieldMerged` | film_festival/views.py:245 | the back-fill's field list names every scalar metadata field |
| `Records.Metadata.Set` | film_festival/views.py:248 | `setattr` changes the named field to the new value and no other field |
| `Records.FilmByImdb` | film_festival/views.py:225-239 | the lookup by IMDb id finds a film exactly when one holds the id, and the film it finds holds it |
| `Merge.BackFilled` | film_festival/views.py:243-251 | a populated field keeps its stored value; an empty field takes a truthy incoming value; a field empty on both sides stays empty |
| `Merge.BackFillIdempotent` | film_festival/views.py:243-251 | back-filling twice with the same payload gives the same metadata as back-filling once |
| `Merge.BackFillNoOp` | film_festival/views.py:250-251 | when no field needs filling, the back-fill leaves the metadata unchanged, so skipping the save loses nothing |
| `Merge.BackFillFields` | film_festival/views.py:243-249 | the loop over the field list computes exactly the back-filled metadata; it records exactly the fields that needed filling, each once |
| `Merge.MergeProviders` | film_festival/views.py:254-260 | after get-or-create the provider table holds exactly the old names plus the payload's names |
| `Merge.MergeProvidersValues` | film_festival/views.py:255-258 | an existing provider's image URL never changes; a new provider takes the image URL of the first payload entry naming it |
| `Merge.GetOrCreateProviders` | film_festival/views.py:76-82 | the loop leaves the table as `MergeProviders` describes and associates every named provider with the film |
| `Merge.GetOrCreateGenres` | film_festival/views.py:263-266 | the loop adds every named genre to the table and to the film's genres, and nothing else |
| `Queries.SortBy` | film_festival/views.py:59 | the listing holds each film of the set exactly once, in an order consistent with the sort key |
| `Queries.FilmsToWatch` | film_festival/views.py:58-64 | the to-watch list holds exactly the unwatched films passing the genre filter, each once, most upvoted first, then earliest created first |
| `Queries.UnwatchedIsListed` | film_festival/views.py:59 | every unwatched film, including a newly proposed one, is on the unfiltered to-watch list |
| `Queries.FilmsWatched` | film_festival/views.py:97 | the watched list holds exactly the watched films, each once, the most recently watched first |
| `Queries.UserRatedFilms` | film_festival/views.py:130-133 | a film is listed exactly when the user has rated it |
| `Queries.UserUpvotedFilms` | film_festival/views.py:140-143 | a film is listed exactly when the user has upvoted it |
| `Festival.CastKeepsFilmCounters` | film_festival/views.py:153-159 | a new upvote together with a counter raised by one keeps every film's counter equal to its upvote rows |
| `Festival.WithdrawKeepsFilmCounters` | film_festival/views.py:36-43 | the counter being decremented is at least one, and the decrement together with the row's removal keeps every counter equal to its rows |
| `Festival.StoreFilmKeepsCounters` | film_festival/views.py:75 | storing a new film with a zero counter under an unused key, or rewriting a film without touching its counter, keeps the counters matching |
| `Festival.CastKeepsEventFilmCounters` | film_festival/views.py:322-328 | a new proposal vote together with a counter raised by one keeps every proposal's counter equal to its vote rows |
| `Festival.WithdrawKeepsEventFilmCounters` | film_festival/views.py:335-343 | the proposal counter being decremented is at least one, and the decrement keeps every counter equal to its rows |
| `Festival.StoreEventFilmKeepsCounters` | film_festival/views.py:273-276 | a new proposal with a zero counter under an unused key keeps the proposal counters matching |
| `Festival.StoreFilmKeepsImdbUnique` | film_festival/views.py:72-75 | storing a film whose IMDb id no other film holds keeps IMDb ids unique |
| `Festival.StoreFilmKeepsWellFormed` | film_festival/views.py:76-86 | associating a film only with providers and genres that exist, while the tables only grow, keeps films well formed |
| `Festival.StoreFilmKeepsFilmSide` | film_festival/views.py:225-266 | storing a new film under the next key, or rewriting an existing one with the same IMDb id and counter, keeps the film side of the invariant |
| `Festival.ProposeKeepsFilmSide` | film_festival/views.py:75-89 | a direct proposal's new film, carrying exactly the proposer's upvote, keeps the film side of the invariant |
| `Festival.ProposeKeepsEventSide` | film_festival/views.py:269-286 | a new proposal for an unlinked (event, film) pair, carrying exactly the proposer's vote, keeps the event side of the invariant |
| `Festival.ProposalTarget` | film_festival/views.py:225-239 | an event proposal's film is the film already holding the IMDb id, or else a new film under the next key |
| `Festival.EventProposalKeepsFilmSide` | film_festival/views.py:225-266 | the event proposal's get-or-create, back-fill and provider and genre merge keep the film side of the invariant |
| `Festival.Store.IncreaseUpVotes` | film_festival/views.py:149-161 | unknown film: 404; an existing upvote: refused with no change; otherwise exactly that pair is added, the counter rises by one and is returned, the film appears among the user's upvoted films, and the invariant holds |
| `Festival.Store.DeleteVote` | film_festival/views.py:33-45 | unknown film: 404; no upvote: refused with no change; otherwise the pair is removed and the counter drops by exactly one with no floor, yet stays non-negative; nothing else changes |
| `Festival.Store.DeleteProposedFilm` | film_festival/views.py:20-27 | a watched film is never deleted (400) whoever asks, and a non-proposer never deletes (403); the deletion happens exactly when neither guard fires, and removes only the film row |
| `Festival.Store.MarkAsWatched` | film_festival/views.py:167-174 | a missing film is an unhandled error; an already watched film is refused with no change; otherwise watched and its date are set to `now`, and the film leaves the to-watch list for the watched list |
| `Festival.Store.CreateRating` | film_festival/views.py:111-123 | unknown film: 404; an existing rating by the user: refused; an invalid request: 400; otherwise exactly one rating is added, so there is at most one rating per (film, user) pair |
| `Festival.Store.ProposeFilmToWatch` | film_festival/views.py:66-93 | an invalid request, a missing IMDb id or one already held is refused with no film created; otherwise a new film under the next key is owned by the proposer, carries exactly the proposer's upvote (counter 1), and is associated with every named provider and genre |
| `Festival.Store.GetOrCreateProposedFilm` | film_festival/views.py:225-251 | the film holding the IMDb id is back-filled, or a new film with no proposer is created under the next key; then the payload's providers and genres are attached |
| `Festival.Store.AttachAndStore` | film_festival/views.py:253-266 | the provider and genre loops add the payload's providers and genres to the tables and to the film, which is stored under its key |
| `Festival.Store.ProposeFilmToEvent` | film_festival/views.py:215-290 | a missing event, a closed event or a missing IMDb id is refused before anything changes; an existing (event, film) link is refused only after the film's get-or-create, back-fill and provider and genre merge; otherwise exactly one new proposal by the user links event and film, with the proposer's vote and a counter of 1 |
| `Festival.Store.DeleteEventFilmProposal` | film_festival/views.py:296-312 | unknown proposal: 404; only the proposer may withdraw it (403); withdrawal removes only the proposal, never the film |
| `Festival.Store.EventFilmUpVote` | film_festival/views.py:318-330 | unknown proposal: 404; an existing vote: refused with no change; otherwise exactly that pair is added and the counter rises by one and is returned |
| `Festival.Store.EventFilmDeleteVote` | film_festival/views.py:332-345 | unknown proposal: 404; no vote: refused with no change; otherwise the pair is removed and the counter, positive by the invariant, drops by exactly one and never goes negative |

## Left out

- HTTP, authentication and permission classes: the requesting user is a parameter and responses are `Records.Error` values or results. The admin-only restriction on marking a film watched is not modelled.
- Serializers: validation is the boolean `valid`; the response bodies built by serializers are not modelled (the direct proposal returns the new film's key).
- The `IntegrityError` branch of the direct proposal (`film_festival/views.py:91-92`) exists only for concurrent duplicate proposals, and concurrency is not modelled.
- A provider entry without `name`, or (on the direct path) without `image_url`, raises a `KeyError` in the source; in the model every provider entry carries both.
- What deleting a film or an event proposal does to dependent vote rows and ratings is defined in `models.py`, which is not part of this model. The model removes only the row the view deletes; the remaining rows stay, but keys are never reused.
- Event and genre administration (`EventCreateList`, `AdminEventDetail`, `GenreList`) only pass serializer output through; the events are given to the store's constructor.
- The clock (`timezone.now()`) is the parameter `now`.
- The field defaults of newly created rows come from `models.py` and `FilmToWatchSerializer`, which are not part of this model; the model assumes them: a new film is unwatched, has no watched date and a counter of 0 (raised to 1 by the direct proposal's own upvote), and a new event proposal's counter is 0 before the proposer's vote. The event path creates its film with no proposer (the `proposed_by` default is commented out at `film_festival/views.py:238`), which assumes that field is nullable; were it not, that create would raise an `IntegrityError`. The zero counters are the base case of the counter invariant.
- Festival.Store.ProposeFilmToEvent: the get-or-create of the proposal and of the proposer's vote is modelled by its create branch only; the existing-link check and the fresh key make the other branch unreachable, as the method's proof asserts.
- Queries.FilmsToWatch: the database leaves the order of films with equal votes and creation time unspecified; the model breaks such ties by film key.
- Queries.FilmsWatched: the order among films without a watched date is not stated; the invariant guarantees every watched film has one.
- Festival.Store.ProposeFilmToWatch: its contract does not mention the to-watch list; `Queries.UnwatchedIsListed` states that the new, unwatched film is on it.

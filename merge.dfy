/** How a proposal folds its payload into what the store already holds:
    the back-fill of an existing film's metadata, and the get-or-create of
    providers and genres with the film's additive association to them. */
module Merge {
  import opened Records

  /** The rule for one field: the incoming value is taken only when it is
      truthy and the stored value is not. */
  function Fill(stored: Value, incoming: Value): Value
  {
    if incoming.Truthy() && !stored.Truthy() then incoming else stored
  }

  /** The back-fill as a declarative table: every metadata field merged by `Fill`. */
  function BackFilled(stored: Metadata, incoming: Metadata): (r: Metadata)
    ensures forall f :: stored.Get(f).Truthy() ==> r.Get(f) == stored.Get(f)
    ensures forall f :: !stored.Get(f).Truthy() && incoming.Get(f).Truthy() ==> r.Get(f) == incoming.Get(f)
    ensures forall f :: !stored.Get(f).Truthy() && !incoming.Get(f).Truthy() ==> r.Get(f) == stored.Get(f)
  {
    Metadata(
      Fill(stored.tittle, incoming.tittle),
      Fill(stored.description, incoming.description),
      Fill(stored.year, incoming.year),
      Fill(stored.runtime, incoming.runtime),
      Fill(stored.image, incoming.image),
      Fill(stored.director, incoming.director),
      Fill(stored.actors, incoming.actors),
      Fill(stored.imdbRating, incoming.imdbRating),
      Fill(stored.imdbVotes, incoming.imdbVotes))
  }

  /** Applying the same payload twice gives what applying it once gives. */
  lemma BackFillIdempotent(stored: Metadata, incoming: Metadata)
    ensures BackFilled(BackFilled(stored, incoming), incoming) == BackFilled(stored, incoming)
  {
    var once := BackFilled(stored, incoming);
    MetadataExtensional(BackFilled(once, incoming), once);
  }

  /** When no field needs filling the back-fill changes nothing: in
      particular a payload with no truthy field, or stored metadata whose
      every field is populated. */
  lemma BackFillNoOp(stored: Metadata, incoming: Metadata)
    requires forall f :: !NeedsFill(stored, incoming, f)
    ensures BackFilled(stored, incoming) == stored
  {
    forall f ensures BackFilled(stored, incoming).Get(f) == stored.Get(f) {
      assert !NeedsFill(stored, incoming, f);
    }
    MetadataExtensional(BackFilled(stored, incoming), stored);
  }

  /** The field the back-fill loop would change. */
  predicate NeedsFill(stored: Metadata, incoming: Metadata, f: Field)
  {
    incoming.Get(f).Truthy() && !stored.Get(f).Truthy()
  }

  /** The back-fill loop over the field list: sets each empty field from a
      truthy incoming value and records the fields it changed. */
  method BackFillFields(stored: Metadata, incoming: Metadata) returns (merged: Metadata, updated: seq<Field>)
    ensures merged == BackFilled(stored, incoming)
    ensures forall f :: f in updated <==> NeedsFill(stored, incoming, f)
    ensures forall a, b :: 0 <= a < b < |updated| ==> updated[a] != updated[b]
  {
    merged, updated := stored, [];
    var i := 0;
    while i < |MergeFields|
      invariant 0 <= i <= |MergeFields|
      invariant forall f :: merged.Get(f) == if f in MergeFields[..i] then Fill(stored.Get(f), incoming.Get(f)) else stored.Get(f)
      invariant forall f :: f in updated <==> f in MergeFields[..i] && NeedsFill(stored, incoming, f)
      invariant forall a, b :: 0 <= a < b < |updated| ==> updated[a] != updated[b]
    {
      var field := MergeFields[i];
      assert field !in MergeFields[..i];
      assert MergeFields[..i + 1] == MergeFields[..i] + [field];
      var newValue := incoming.Get(field);
      if newValue.Truthy() && !merged.Get(field).Truthy() {
        merged := merged.Set(field, newValue);
        updated := updated + [field];
      }
      i := i + 1;
    }
    assert MergeFields[..i] == MergeFields;
    forall f ensures merged.Get(f) == BackFilled(stored, incoming).Get(f) {
      EveryFieldMerged(f);
    }
    MetadataExtensional(merged, BackFilled(stored, incoming));
  }

  /** The provider names a payload mentions. */
  function Names(data: seq<ProviderData>): set<string>
  {
    set d | d in data :: d.name
  }

  /** The provider table after get-or-create of each provider by name, in
      order. */
  function MergeProviders(table: map<string, string>, data: seq<ProviderData>): (r: map<string, string>)
    ensures r.Keys == table.Keys + Names(data)
    decreases |data|
  {
    if data == [] then table
    else
      var d := data[0];
      var table' := if d.name in table then table else table[d.name := d.imageUrl];
      assert Names(data) == {d.name} + Names(data[1..]);
      MergeProviders(table', data[1..])
  }

  /** Get-or-create never changes a provider that exists, and a new provider
      takes the image URL of the first payload entry that names it. */
  lemma {:induction false} MergeProvidersValues(table: map<string, string>, data: seq<ProviderData>)
    ensures forall n :: n in table ==> MergeProviders(table, data)[n] == table[n]
    ensures forall k :: 0 <= k < |data| && data[k].name !in table && FirstNamed(data, k)
              ==> MergeProviders(table, data)[data[k].name] == data[k].imageUrl
    decreases |data|
  {
    if data != [] {
      var d := data[0];
      var table' := if d.name in table then table else table[d.name := d.imageUrl];
      MergeProvidersValues(table', data[1..]);
      forall k | 0 < k < |data| && data[k].name !in table && FirstNamed(data, k)
        ensures MergeProviders(table, data)[data[k].name] == data[k].imageUrl
      {
        assert data[1..][k - 1] == data[k];
        assert data[k].name != d.name by { assert data[0].name != data[k].name; }
        assert FirstNamed(data[1..], k - 1) by {
          forall j | 0 <= j < k - 1 ensures data[1..][j].name != data[k].name {
            assert data[1..][j] == data[j + 1];
          }
        }
      }
    }
  }

  /** Entry `k` is the first in `data` with its name. */
  predicate FirstNamed(data: seq<ProviderData>, k: nat)
    requires k < |data|
  {
    forall j :: 0 <= j < k ==> data[j].name != data[k].name
  }

  /** The provider loop: get-or-create each provider and associate it with
      the film. */
  method GetOrCreateProviders(table: map<string, string>, filmProviders: set<string>, data: seq<ProviderData>)
    returns (table': map<string, string>, filmProviders': set<string>)
    ensures table' == MergeProviders(table, data)
    ensures filmProviders' == filmProviders + Names(data)
  {
    table', filmProviders' := table, filmProviders;
    var i := 0;
    while i < |data|
      invariant 0 <= i <= |data|
      invariant MergeProviders(table', data[i..]) == MergeProviders(table, data)
      invariant filmProviders' == filmProviders + Names(data[..i])
    {
      var d := data[i];
      assert data[i..][1..] == data[i + 1..];
      assert data[..i + 1] == data[..i] + [d];
      if d.name !in table' {
        table' := table'[d.name := d.imageUrl];
      }
      filmProviders' := filmProviders' + {d.name};
      i := i + 1;
    }
    assert data[..i] == data;
  }

  /** The genre names a payload mentions. */
  function GenreNames(names: seq<string>): set<string>
  {
    set g | g in names
  }

  /** The genre loop: get-or-create each genre by name and associate it with
      the film. */
  method GetOrCreateGenres(table: set<string>, filmGenres: set<string>, names: seq<string>)
    returns (table': set<string>, filmGenres': set<string>)
    ensures table' == table + GenreNames(names)
    ensures filmGenres' == filmGenres + GenreNames(names)
  {
    table', filmGenres' := table, filmGenres;
    var i := 0;
    while i < |names|
      invariant 0 <= i <= |names|
      invariant table' == table + GenreNames(names[..i])
      invariant filmGenres' == filmGenres + GenreNames(names[..i])
    {
      assert names[..i + 1] == names[..i] + [names[i]];
      table' := table' + {names[i]};
      filmGenres' := filmGenres' + {names[i]};
      i := i + 1;
    }
    assert names[..i] == names;
  }
}

/** The source list of a web-search answer (`performSearch` in App.tsx): the
    grounding chunks of the first candidate are folded into a JavaScript
    `Map` keyed by URI, skipping chunks without a URI or a title, and the
    map's values, in insertion order, become the listed sources. */
module SearchSources {
  import opened Outcomes
  import opened Pairs

  // ---------------------------------------------------------------------
  // An insertion-ordered map (ECMA-262, section 24.1, Map Objects)
  // ---------------------------------------------------------------------

  ghost predicate DistinctKeys<K, V>(entries: seq<(K, V)>) {
    forall i, j :: 0 <= i < j < |entries| ==> entries[i].0 != entries[j].0
  }

  /** The entries after `map.set(key, value)` (ECMA-262, section 24.1.3.9):
      an existing entry keeps its place and takes the new value, a new key
      goes to the end. */
  function Upsert<K(==), V>(entries: seq<(K, V)>, key: K, value: V): (r: seq<(K, V)>)
  {
    var p := KeyIndex(entries, key);
    if p < |entries| then entries[p := (key, value)] else entries + [(key, value)]
  }

  /** `set` behaves as a map: the key now yields the new value, every other
      key what it yielded before; earlier entries keep their keys and order,
      and at most one entry is added. */
  lemma UpsertIsMapUpdate<K, V>(entries: seq<(K, V)>, key: K, value: V, other: K)
    ensures Lookup(Upsert(entries, key, value), key) == Some(value)
    ensures other != key ==> Lookup(Upsert(entries, key, value), other) == Lookup(entries, other)
    ensures |Upsert(entries, key, value)| == |entries| + (if Lookup(entries, key).Some? then 0 else 1)
    ensures forall i :: 0 <= i < |entries| ==> Upsert(entries, key, value)[i].0 == entries[i].0
  {
    var r := Upsert(entries, key, value);
    var p := KeyIndex(entries, key);
    assert forall i :: 0 <= i < |entries| ==> r[i].0 == entries[i].0;
    if p < |entries| {
      KeyIndexAgrees(entries, r, key);
      if KeyIndex(entries, other) < |entries| {
        KeyIndexAgrees(entries, r, other);
      } else {
        assert forall i :: 0 <= i < |r| ==> r[i].0 != other;
      }
    } else {
      assert r[|entries|] == (key, value);
      assert forall i :: 0 <= i < |entries| ==> r[i].0 != key;
      if KeyIndex(entries, other) < |entries| {
        KeyIndexAgrees(entries, r, other);
      } else if other != key {
        assert forall i :: 0 <= i < |r| ==> r[i].0 != other;
      }
    }
  }

  /** `set` never creates a second entry for a key. */
  lemma UpsertKeepsKeysDistinct<K, V>(entries: seq<(K, V)>, key: K, value: V)
    requires DistinctKeys(entries)
    ensures DistinctKeys(Upsert(entries, key, value))
  {
  }

  /** A `Map` object: its entries in insertion order. */
  class OrderedMap<K(==), V> {
    var entries: seq<(K, V)>

    ghost predicate Valid()
      reads this
    {
      DistinctKeys(entries)
    }

    /** `new Map()`. */
    constructor ()
      ensures Valid() && entries == []
    {
      entries := [];
    }

    /** `map.set(key, value)`: scan the entries for the key; replace its
        value in place if found, append a new entry otherwise. */
    method Set(key: K, value: V)
      requires Valid()
      modifies this
      ensures Valid()
      ensures entries == Upsert(old(entries), key, value)
    {
      var i := 0;
      while i < |entries| && entries[i].0 != key
        invariant 0 <= i <= |entries|
        invariant forall j :: 0 <= j < i ==> entries[j].0 != key
      {
        i := i + 1;
      }
      assert i == KeyIndex(entries, key);
      UpsertKeepsKeysDistinct(entries, key, value);
      if i < |entries| {
        entries := entries[i := (key, value)];
      } else {
        entries := entries + [(key, value)];
      }
    }

    /** `Array.from(map.values())`. */
    method Values() returns (vs: seq<V>)
      ensures |vs| == |entries|
      ensures forall i :: 0 <= i < |entries| ==> vs[i] == entries[i].1
    {
      vs := [];
      for i := 0 to |entries|
        invariant |vs| == i
        invariant forall j :: 0 <= j < i ==> vs[j] == entries[j].1
      {
        vs := vs + [entries[i].1];
      }
    }
  }

  // ---------------------------------------------------------------------
  // Grounding chunks and the listed sources
  // ---------------------------------------------------------------------

  /** `chunk.web`, whose fields may be absent. */
  datatype Web = Web(uri: Option<string>, title: Option<string>)
  datatype Chunk = Chunk(web: Option<Web>)

  /** `{ title, uri }` as listed under the answer. */
  datatype Source = Source(title: string, uri: string)

  /** `chunk.web?.uri && chunk.web?.title`: both present and non-empty. */
  predicate Qualifies(c: Chunk) {
    c.web.Some? && c.web.value.uri.Some? && c.web.value.uri.value != ""
    && c.web.value.title.Some? && c.web.value.title.value != ""
  }

  predicate QualifiesWith(c: Chunk, uri: string) {
    Qualifies(c) && c.web.value.uri.value == uri
  }

  /** Some chunk among the first `n` qualifies with `uri`. */
  function Occurs(chunks: seq<Chunk>, n: nat, uri: string): bool
    requires n <= |chunks|
  {
    if n == 0 then false else Occurs(chunks, n - 1, uri) || QualifiesWith(chunks[n - 1], uri)
  }

  lemma {:induction false} OccursIffSomeChunk(chunks: seq<Chunk>, n: nat, uri: string)
    requires n <= |chunks|
    ensures Occurs(chunks, n, uri) <==> exists k :: 0 <= k < n && QualifiesWith(chunks[k], uri)
  {
    if n > 0 {
      OccursIffSomeChunk(chunks, n - 1, uri);
    }
  }

  /** The first of the first `n` chunks that qualifies with `uri`. */
  function FirstChunk(chunks: seq<Chunk>, n: nat, uri: string): (k: nat)
    requires n <= |chunks| && Occurs(chunks, n, uri)
    ensures k < n && QualifiesWith(chunks[k], uri)
    ensures forall j :: 0 <= j < k ==> !QualifiesWith(chunks[j], uri)
  {
    if Occurs(chunks, n - 1, uri) then FirstChunk(chunks, n - 1, uri)
    else
      OccursIffSomeChunk(chunks, n - 1, uri);
      n - 1
  }

  /** The title of the last of the first `n` chunks that qualifies with `uri`. */
  function LastTitle(chunks: seq<Chunk>, n: nat, uri: string): string
    requires n <= |chunks| && Occurs(chunks, n, uri)
  {
    if QualifiesWith(chunks[n - 1], uri) then chunks[n - 1].web.value.title.value
    else LastTitle(chunks, n - 1, uri)
  }

  /** LastTitle is the title of a chunk with that URI that no later chunk
      among the first `n` overrides. */
  lemma {:induction false} LastTitleIsLast(chunks: seq<Chunk>, n: nat, uri: string)
    requires n <= |chunks| && Occurs(chunks, n, uri)
    ensures exists k :: 0 <= k < n && QualifiesWith(chunks[k], uri) && chunks[k].web.value.title.value == LastTitle(chunks, n, uri)
                      && (forall j :: k < j < n ==> !QualifiesWith(chunks[j], uri))
  {
    if !QualifiesWith(chunks[n - 1], uri) {
      LastTitleIsLast(chunks, n - 1, uri);
    }
  }

  /** Each entry is keyed by its source's URI, which occurs among the first
      `n` chunks, and holds the last title seen for it. */
  ghost predicate EntriesAccurate(entries: seq<(string, Source)>, chunks: seq<Chunk>, n: nat)
    requires n <= |chunks|
  {
    forall p :: 0 <= p < |entries| ==>
      && entries[p].1.uri == entries[p].0
      && Occurs(chunks, n, entries[p].0)
      && entries[p].1.title == LastTitle(chunks, n, entries[p].0)
  }

  /** Every qualifying chunk among the first `n` has an entry. */
  ghost predicate CoversChunks(entries: seq<(string, Source)>, chunks: seq<Chunk>, n: nat)
    requires n <= |chunks|
  {
    forall k :: 0 <= k < n && Qualifies(chunks[k]) ==> KeyIndex(entries, chunks[k].web.value.uri.value) < |entries|
  }

  /** Entries come in the order of their URIs' first occurrences. */
  ghost predicate OrderedByFirstChunk(entries: seq<(string, Source)>, chunks: seq<Chunk>, n: nat)
    requires n <= |chunks|
  {
    forall p, q :: 0 <= p < q < |entries| && Occurs(chunks, n, entries[p].0) && Occurs(chunks, n, entries[q].0) ==>
      FirstChunk(chunks, n, entries[p].0) < FirstChunk(chunks, n, entries[q].0)
  }

  /** What the map holds after the first `n` chunks: one entry per URI that
      occurs, in order of first occurrence, holding the last title seen. */
  ghost predicate Summarises(entries: seq<(string, Source)>, chunks: seq<Chunk>, n: nat)
    requires n <= |chunks|
  {
    && DistinctKeys(entries)
    && EntriesAccurate(entries, chunks, n)
    && CoversChunks(entries, chunks, n)
    && OrderedByFirstChunk(entries, chunks, n)
  }

  /** A chunk that does not qualify with `uri` changes nothing about it. */
  lemma ChunkForOtherUri(chunks: seq<Chunk>, n: nat, uri: string)
    requires n < |chunks| && !QualifiesWith(chunks[n], uri)
    ensures Occurs(chunks, n + 1, uri) == Occurs(chunks, n, uri)
    ensures Occurs(chunks, n, uri) ==>
      FirstChunk(chunks, n + 1, uri) == FirstChunk(chunks, n, uri)
      && LastTitle(chunks, n + 1, uri) == LastTitle(chunks, n, uri)
  {
  }

  /** A chunk that qualifies with `uri` becomes its last chunk, and its first
      one if there was none before. */
  lemma ChunkForUri(chunks: seq<Chunk>, n: nat, uri: string)
    requires n < |chunks| && QualifiesWith(chunks[n], uri)
    ensures Occurs(chunks, n + 1, uri)
    ensures FirstChunk(chunks, n + 1, uri) == if Occurs(chunks, n, uri) then FirstChunk(chunks, n, uri) else n
    ensures LastTitle(chunks, n + 1, uri) == chunks[n].web.value.title.value
  {
  }

  /** A URI's first occurrence does not move when more chunks are seen. */
  lemma FirstChunkStable(chunks: seq<Chunk>, n: nat, uri: string)
    requires n < |chunks| && Occurs(chunks, n, uri)
    ensures Occurs(chunks, n + 1, uri)
    ensures FirstChunk(chunks, n + 1, uri) == FirstChunk(chunks, n, uri)
  {
  }

  /** A chunk that is skipped keeps the map summarising the chunks seen. */
  lemma SkipKeepsSummary(entries: seq<(string, Source)>, chunks: seq<Chunk>, n: nat)
    requires n < |chunks| && Summarises(entries, chunks, n) && !Qualifies(chunks[n])
    ensures Summarises(entries, chunks, n + 1)
  {
    forall p | 0 <= p < |entries|
      ensures Occurs(chunks, n + 1, entries[p].0)
      ensures FirstChunk(chunks, n + 1, entries[p].0) == FirstChunk(chunks, n, entries[p].0)
      ensures LastTitle(chunks, n + 1, entries[p].0) == LastTitle(chunks, n, entries[p].0)
    {
      ChunkForOtherUri(chunks, n, entries[p].0);
    }
  }

  /** The entry `set` writes for a qualifying chunk. */
  function SourceOf(c: Chunk): Source
    requires Qualifies(c)
  {
    Source(c.web.value.title.value, c.web.value.uri.value)
  }

  /** `uniqueSources.set(uri, { title, uri })` for a qualifying chunk keeps
      the map summarising the chunks seen. */
  lemma SetKeepsSummary(entries: seq<(string, Source)>, chunks: seq<Chunk>, n: nat)
    requires n < |chunks| && Summarises(entries, chunks, n) && Qualifies(chunks[n])
    ensures Summarises(Upsert(entries, SourceOf(chunks[n]).uri, SourceOf(chunks[n])), chunks, n + 1)
  {
    UpsertKeepsKeysDistinct(entries, SourceOf(chunks[n]).uri, SourceOf(chunks[n]));
    SetKeepsEntriesAccurate(entries, chunks, n);
    SetKeepsChunksCovered(entries, chunks, n);
    SetKeepsOrder(entries, chunks, n);
  }

  lemma SetKeepsEntriesAccurate(entries: seq<(string, Source)>, chunks: seq<Chunk>, n: nat)
    requires n < |chunks| && Summarises(entries, chunks, n) && Qualifies(chunks[n])
    ensures EntriesAccurate(Upsert(entries, SourceOf(chunks[n]).uri, SourceOf(chunks[n])), chunks, n + 1)
  {
    var src := SourceOf(chunks[n]);
    var u := src.uri;
    var r := Upsert(entries, u, src);
    UpsertIsMapUpdate(entries, u, src, u);
    UpsertKeepsKeysDistinct(entries, u, src);
    ChunkForUri(chunks, n, u);
    var p0 := KeyIndex(r, u);
    assert p0 < |r| && r[p0] == (u, src);
    forall p | 0 <= p < |r|
      ensures r[p].1.uri == r[p].0
      ensures Occurs(chunks, n + 1, r[p].0)
      ensures r[p].1.title == LastTitle(chunks, n + 1, r[p].0)
    {
      if r[p].0 == u {
        assert p == p0;
      } else {
        assert p < |entries| && r[p] == entries[p];
        ChunkForOtherUri(chunks, n, r[p].0);
      }
    }
  }

  lemma SetKeepsChunksCovered(entries: seq<(string, Source)>, chunks: seq<Chunk>, n: nat)
    requires n < |chunks| && Summarises(entries, chunks, n) && Qualifies(chunks[n])
    ensures CoversChunks(Upsert(entries, SourceOf(chunks[n]).uri, SourceOf(chunks[n])), chunks, n + 1)
  {
    var src := SourceOf(chunks[n]);
    var r := Upsert(entries, src.uri, src);
    forall k | 0 <= k < n + 1 && Qualifies(chunks[k])
      ensures KeyIndex(r, chunks[k].web.value.uri.value) < |r|
    {
      UpsertIsMapUpdate(entries, src.uri, src, chunks[k].web.value.uri.value);
    }
  }

  lemma SetKeepsOrder(entries: seq<(string, Source)>, chunks: seq<Chunk>, n: nat)
    requires n < |chunks| && Summarises(entries, chunks, n) && Qualifies(chunks[n])
    ensures OrderedByFirstChunk(Upsert(entries, SourceOf(chunks[n]).uri, SourceOf(chunks[n])), chunks, n + 1)
  {
    var src := SourceOf(chunks[n]);
    var u := src.uri;
    var r := Upsert(entries, u, src);
    UpsertIsMapUpdate(entries, u, src, u);
    ChunkForUri(chunks, n, u);
    forall p | 0 <= p < |entries|
      ensures r[p].0 == entries[p].0 && Occurs(chunks, n + 1, r[p].0)
      ensures FirstChunk(chunks, n + 1, r[p].0) == FirstChunk(chunks, n, entries[p].0) < n
    {
      FirstChunkStable(chunks, n, entries[p].0);
    }
    if |r| > |entries| {
      assert r[|entries|].0 == u && !Occurs(chunks, n, u);
      assert FirstChunk(chunks, n + 1, r[|entries|].0) == n;
    }
  }

  /** The listed sources describe the chunks: distinct URIs, exactly the
      URIs of the qualifying chunks, in order of first occurrence, each with
      the title of the last chunk that carries its URI. */
  ghost predicate DeduplicatesChunks(sources: seq<Source>, chunks: seq<Chunk>) {
    && (forall p, q :: 0 <= p < q < |sources| ==> sources[p].uri != sources[q].uri)
    && (forall p :: 0 <= p < |sources| ==>
          Occurs(chunks, |chunks|, sources[p].uri) && sources[p].title == LastTitle(chunks, |chunks|, sources[p].uri))
    && (forall k :: 0 <= k < |chunks| && Qualifies(chunks[k]) ==>
          exists p :: 0 <= p < |sources| && sources[p].uri == chunks[k].web.value.uri.value)
    && (forall p, q :: 0 <= p < q < |sources| ==>
          FirstChunk(chunks, |chunks|, sources[p].uri) < FirstChunk(chunks, |chunks|, sources[q].uri))
  }

  /** The values of a map that summarises all the chunks are the sources. */
  lemma SummaryListsSources(entries: seq<(string, Source)>, chunks: seq<Chunk>, sources: seq<Source>)
    requires Summarises(entries, chunks, |chunks|)
    requires |sources| == |entries| && forall p :: 0 <= p < |entries| ==> sources[p] == entries[p].1
    ensures DeduplicatesChunks(sources, chunks)
  {
    forall k | 0 <= k < |chunks| && Qualifies(chunks[k])
      ensures exists p :: 0 <= p < |sources| && sources[p].uri == chunks[k].web.value.uri.value
    {
      var p := KeyIndex(entries, chunks[k].web.value.uri.value);
      assert sources[p].uri == entries[p].0;
    }
  }

  /** The map's entries after the `forEach` callback has run on the first
      `n` chunks. */
  function EntriesAfter(chunks: seq<Chunk>, n: nat): seq<(string, Source)>
    requires n <= |chunks|
  {
    if n == 0 then []
    else if Qualifies(chunks[n - 1]) then
      Upsert(EntriesAfter(chunks, n - 1), SourceOf(chunks[n - 1]).uri, SourceOf(chunks[n - 1]))
    else EntriesAfter(chunks, n - 1)
  }

  /** After any number of chunks the map summarises exactly those chunks. */
  lemma {:induction false} EntriesAfterSummarise(chunks: seq<Chunk>, n: nat)
    requires n <= |chunks|
    ensures Summarises(EntriesAfter(chunks, n), chunks, n)
  {
    if n > 0 {
      var m := n - 1;
      EntriesAfterSummarise(chunks, m);
      StepSummarises(chunks, m);
    }
  }

  /** One more chunk keeps the summary. */
  lemma StepSummarises(chunks: seq<Chunk>, m: nat)
    requires m < |chunks| && Summarises(EntriesAfter(chunks, m), chunks, m)
    ensures Summarises(EntriesAfter(chunks, m + 1), chunks, m + 1)
  {
    var prev := EntriesAfter(chunks, m);
    if Qualifies(chunks[m]) {
      SetKeepsSummary(prev, chunks, m);
    } else {
      SkipKeepsSummary(prev, chunks, m);
    }
  }

  /** The de-duplication step of `performSearch`. `chunks` is
      `response.candidates?.[0]?.groundingMetadata?.groundingChunks`; when it
      is absent the list stays as `performSearch` reset it, empty. */
  method UniqueSources(chunks: Option<seq<Chunk>>) returns (sources: seq<Source>)
    ensures chunks.None? ==> sources == []
    ensures chunks.Some? ==> DeduplicatesChunks(sources, chunks.value)
  {
    sources := [];
    if chunks.None? {
      return;
    }
    var cs := chunks.value;
    var uniqueSources := new OrderedMap<string, Source>();
    for i := 0 to |cs|
      invariant uniqueSources.Valid()
      invariant uniqueSources.entries == EntriesAfter(cs, i)
    {
      var chunk := cs[i];
      if Qualifies(chunk) {
        var source := SourceOf(chunk);
        uniqueSources.Set(source.uri, source);
      }
    }
    sources := uniqueSources.Values();
    EntriesAfterSummarise(cs, |cs|);
    SummaryListsSources(uniqueSources.entries, cs, sources);
  }
}

# actually_random: the shuffle-and-write-back engine

`actually_random` copies a user's playlist on a music-streaming service
with its tracks in a fresh random order. The web, OAuth and service-API
layers are glue; this project models the one piece of logic underneath:

- **Shuffle pattern** (`get_shuffle`): the session cookie cannot hold a
  large playlist, so only a shuffling pattern is stored, the positions
  `0 .. n-1` rearranged by `random.shuffle`. Modelled as a method that
  fills an array with `0 .. n-1` and runs the standard library's swap loop
  on it, each swap partner chosen nondeterministically.
- **Dereferencing** (the comprehensions that read `track_names` through
  the stored pattern, and `get_names`): pure index maps, modelled as
  functions. Reading through a pattern that holds a position beyond the
  list raises `IndexError` in the source; the model returns `None` there.
- **Batcher** (`get_tracks_for_add`): a generator that hands out the
  identifiers in groups of at most 100, the limit of the service's "add
  tracks" call. Modelled as a method with the source's loop that returns
  the sequence of batches the generator yields, proved equal to a
  reference function `Chunks`.
- **Playlist lookup** (`get_playlist_id_by_name`): the first playlist with
  a given name, over a list of playlists given as a parameter.

Modules: `Wrappers` (the `Option` type), `Batcher`, `Shuffle`, `Tracks`,
`PlaylistLookup`, and `WriteBack`, which ties them together. The main
results, `WriteBack.ShuffledWriteBack` and
`WriteBack.ShuffledWriteBackOrder`, say that a save writes the
identifiers of the shuffled view in that order, which are the playlist's
identifiers, each as often as it occurs in the playlist, in
ceil(n / 100) calls of at most 100 items.

Track identifiers are `Option<string>`: the service reports `None` for
tracks withdrawn from its catalogue. The source copies identifiers as
they come (actually_random.py:143) and does not filter out `None` before
writing back (actually_random.py:157). The model does the same: nothing
is filtered, and the end-to-end result counts `None` identifiers like
any other.

## Model

| member | source | states |
|---|---|---|
| `Batcher.GetTracksForAdd` | actually_random.py:173-181 | the batches yielded join back to the input exactly; each holds 1 to 100 items and all but the last hold exactly 100; there are ceil(m/100) of them; they equal the reference batching `Chunks` |
| `Batcher.ChunksFlatten` | actually_random.py:173-181 | joining the reference batches reproduces the input in order, nothing omitted or duplicated |
| `Batcher.ChunksWellSized` | actually_random.py:177-180 | every reference batch has 1 to 100 items, every one but the last exactly 100 |
| `Batcher.ChunksCount` | actually_random.py:174-181 | an empty input gives no batch, m items give ceil(m/100) batches |
| `Batcher.ChunksUnique` | actually_random.py:176-180 | any batching that joins back to the input with that size shape is the reference batching, so the loop's output is determined |
| `Shuffle.IotaCount` | actually_random.py:196 | `list(range(n))` holds each position below n exactly once and nothing else |
| `Shuffle.PermutationFacts` | actually_random.py:184-198 | a pattern that is a permutation of 0..n-1 has length n, valid positions only, every position exactly once, no entry repeated |
| `Shuffle.ShuffleInPlace` | actually_random.py:197 | the in-place shuffle leaves the array a rearrangement of its old contents, whatever swap partners are chosen |
| `Shuffle.GetShuffle` | actually_random.py:184-198 | the pattern has the tracks' length and holds every position of the track list exactly once; no tracks give `[]`, one track gives `[0]` |
| `Tracks.Dereference` | actually_random.py:166 | reading a list through a pattern fails exactly when some entry is not a position of the list; otherwise the i-th result is the item at the pattern's i-th entry |
| `Tracks.Names` | actually_random.py:201-202 | `get_names` keeps length and order and takes the name of each pair |
| `Tracks.WriteBackIds` | actually_random.py:157 | the write-back list fails exactly when the stored pattern has an entry beyond the track list; otherwise its i-th element is the identifier of the track at the pattern's i-th entry |
| `Tracks.GatherMultiset` | actually_random.py:166 | reading a list through two patterns that are rearrangements of each other gives results that are rearrangements of each other |
| `Tracks.DereferencePermutation` | actually_random.py:165-166 | reading the tracks through a permutation of their positions never fails and gives a rearrangement of the tracks, nothing lost or duplicated |
| `Tracks.NamesCommute` | actually_random.py:166-170 | taking the names of the shuffled view equals reading the name list through the pattern |
| `Tracks.WriteBackIdsCommute` | actually_random.py:157 | the write-back list is the identifier list read through the pattern, and the identifiers of the shuffled view in the same order |
| `Tracks.ShuffledNamesRearrange` | actually_random.py:165-170 | the shuffled names shown are the playlist's names rearranged |
| `Tracks.WriteBackIdsRearrange` | actually_random.py:157 | under a permutation the write-back list exists, has the playlist's length and is its identifiers rearranged |
| `PlaylistLookup.MatchingIds` | actually_random.py:221-222 | the match list is empty exactly when no playlist has the name; otherwise it starts with the identifier of the first playlist that does |
| `PlaylistLookup.PlaylistIdByName` | actually_random.py:220-222 | no result (IndexError) exactly when no playlist has the name; otherwise the identifier of the first playlist with that name |
| `WriteBack.ShuffledWriteBack` | actually_random.py:157-159 | the batches carry the playlist's identifiers, each as often as it occurs in the playlist, in ceil(n/100) batches of at most 100, all but the last full |
| `WriteBack.ShuffledWriteBackOrder` | actually_random.py:157-159 | the batches joined are the identifiers of the shuffled view (line 166), in the view's order |
| `WriteBack.StalePattern` | actually_random.py:157 | a pattern stored for n tracks fails at save time exactly when the playlist now has fewer than n tracks, and otherwise writes n identifiers |
| `WriteBack.ThreeTrackPlaylist` | actually_random.py:165-166 | for three tracks the pattern is one of the six orderings of 0, 1, 2, and the view holds each track once |
| `WriteBack.TwoHundredFiftyIds` | actually_random.py:173-181 | 250 identifiers go out in batches of 100, 100 and 50 |

## Left out

- The web routes `index`, `playlists` and `view_playlist` (request handling, templates, `flash`, redirects, the session store): framework plumbing. The pattern stored in the session is a parameter of the lemmas.
- `get_oauth`, `get_spotify`, `get_prefs`, `finish_auth`: calls into the OAuth client library and reading `config.json`.
- Every call to the streaming service, including the paging loops in `view_playlist` and `get_user_playlists`; the playlists and tracks they return are parameters. The second paging loop refers to an undefined name and is not modelled.
- The playlist-name form and its validators, which live in the form library.
- Randomness: the distribution of `random.shuffle` (uniformity) is not modelled; each swap partner is a nondeterministic choice, so the proofs hold for every choice. The model does not show that every ordering can be produced.
- `Batcher.GetTracksForAdd`: returns all batches at once; the generator's laziness (batches produced on demand, single pass) is not modelled.
- Filtering out `None` identifiers before writing back: the code does not do it, so neither does the model.

# GoTail: a verified model of the log-distribution core

GoTail follows one or more growing log files and streams their new lines to
browsers over WebSockets. A browser that joins late first receives each
source's recent history. Access can be protected by a password checked
through a session cookie. This project models the sequential logic under
the goroutines and sockets of `main.go`, and proves properties of it in
Dafny:

- `window.dfy` (module `Window`): the tail window `getLastLinesFromFile`
  keeps, and the sliding-window facts that the hub's history relies on.
- `hub.dfy` (module `Broadcast`): the hub (`Hub`). It keeps the history map
  (source index to at most 50 lines) and the client set. Its operations
  are seeding at startup, ingest with eviction and fan-out, register with
  history replay, and unregister. Each `Conn` has a ghost `sent` log that
  stands for what `WriteMessage` wrote to that connection.
- `config.dfy` (module `Config`): the defaults loop of `loadDashboardConfig`
  (missing names and profiles) and `loadProfile` with its fallback to
  `"default"`. The profile directory is an abstract map from a profile name
  to `Missing`, `BadJson` or `Rules(...)`.
- `session.dfy` (module `Session`): the decisions of `authMiddleware` and
  `handleLogin`. SHA-256 with hex encoding is a parameter `H` that returns a
  64-character digest.
- `wrappers.dfy` (module `Wrappers`): `Option`.

Every hub mutation in `main.go` runs wholly under `hub.mutex`, so each is
one atomic method here. The hub invariant `Valid()` says that no history
buffer holds more than `HistorySize` (50) lines. `Seed`, `Ingest`,
`HandleMessages` and `Register` preserve it.

Behaviour of `main.go` that the model keeps:

- On joining, history is replayed in Go's map-iteration order, which is
  random, so `Register` takes that order as an input. `ReplayPerSource`
  shows that each source's lines arrive exactly once and in stored order,
  whatever the order of sources.
- Errors returned by `WriteMessage` are ignored. A client leaves the set
  only when its read loop fails.
- A joining client is added to the client set first, and the history is
  then written to it, both inside the same critical section.
- The lines read at startup go into history only; nothing is written to
  clients for them.
- Each history buffer is a slice: a new line is appended and, when the
  buffer then holds more than 50 lines, its first element is sliced off.

## Model

| member | source | states |
|---|---|---|
| Window.LastN | main.go:342-345 | the result is the last `n` lines of `lines`, element by element, or all of them when there are no more than `n`; in that case it is `lines` itself |
| Window.LastLines | main.go:329-346 | an unreadable file gives no lines; a readable one gives its last `n` lines; never more than `n` |
| Window.GetLastLinesFromFile | main.go:329-346 | collecting the file line by line and then slicing returns exactly `LastLines(file, n)` |
| Window.LastNSlide | main.go:412-415 | windowing, appending one line and windowing again equals windowing the whole stream plus that line |
| Window.EvictOldest | main.go:412-415 | appending to a buffer of at most `n` lines and dropping index 0 when it then exceeds `n` keeps exactly the last `n` lines |
| Window.LastNAppend | main.go:412-415 | feeding any stream of lines through the window gives the window of the whole stream: the `n` most recent lines in arrival order |
| Broadcast.Hub.constructor | main.go:123-125 | the hub starts with an empty history for each configured index `0 .. logCount-1`, no other keys, and no clients |
| Broadcast.Conn.constructor | main.go:380 | a freshly upgraded connection has had nothing written to it |
| Broadcast.Hub.Seed | main.go:307-310 | the startup append puts at most 50 lines into the still empty buffer of `index`; other buffers and the clients are unchanged; nothing is written to any client; the bound is kept |
| Broadcast.Hub.StartTailing | main.go:299-327 | each source with a path has exactly the last 50 lines of its file (none if it cannot be opened); sources without a path and all other indexes keep their buffers; the clients are unchanged |
| Broadcast.SeededAt | main.go:300-310 | after the seeding loop, the buffer of index `i` holds the tail of the file of entry `i` if that entry has a path, and is unchanged otherwise |
| Broadcast.Hub.Ingest | main.go:410-420 | `history[i]` becomes `LastN(old + [t], 50)` (an absent index starts empty); every other index and the client set are unchanged; every live client receives exactly one message `(i, t)`; the bound is kept |
| Broadcast.Hub.HandleMessages | main.go:408-423 | after a stream of events, each source's buffer is the last 50 lines of its old buffer followed by that source's new lines, and every live client has received all events in the order they were taken |
| Broadcast.AfterEventsAt | main.go:411-415 | the history after a stream of ingests, per source: the last 50 lines of the old buffer followed by that source's lines from the stream |
| Broadcast.Hub.Register | main.go:386-396 | the client is added, history is unchanged, and the client's log receives each source's buffered lines, one source after another in the iteration order `order` |
| Broadcast.Hub.WriteSource | main.go:390-394 | the inner replay loop writes one message per buffered line of the source, in stored order |
| Broadcast.ReplayPerSource | main.go:389-395 | whatever order the sources are visited in, the replay carries every buffered line of every source exactly once, in stored order within that source |
| Broadcast.ReplayThenLive | main.go:386-420 | what a joining client receives from a source is that source's history at join time, followed by the lines ingested later, never interleaved |
| Broadcast.JoinAfterOverflow | main.go:408-423 | with two sources, after 60 lines are ingested for the first, a new client receives lines 11 to 60 of it and nothing of the second |
| Broadcast.Hub.Unregister | main.go:399-403 | only `c` is removed from the client set, history is untouched, and removing an absent client changes nothing (so removal is idempotent) |
| Config.WithDefaults | main.go:184-196 | the path is kept; a missing name becomes `Base(path)` when there is a path and `"Log Sin Nombre #" + (i+1)` otherwise; a missing profile becomes `"default"`; a given name or profile is kept; name and profile are never empty |
| Config.Dashboard.constructor | main.go:76-78 | the configuration state starts with the parsed source entries as given, the profile files on disk, and no profile loaded |
| Config.Dashboard.FillDefaults | main.go:182-196 | entry `i` becomes `WithDefaults(entry, i)` in place; the other entries and the loaded profiles are unchanged |
| Config.Dashboard.ApplyDefaultsAt | main.go:181-201 | one pass of the defaults loop keeps its invariant: the first `i+1` entries have their defaults, the rest are as read, their profiles are loaded with the rules they resolve to, profiles loaded before are untouched, and nothing else but `"default"` is loaded |
| Config.Dashboard.ApplyDefaults | main.go:180-202 | the number of entries is unchanged and each entry becomes `WithDefaults(old entry, i)`; every entry's profile is then loaded with the rules it resolves to; profiles that were already loaded are untouched; no profile is loaded other than those already loaded, the entries' profiles and `"default"` |
| Config.Dashboard.LoadProfile | main.go:207-239 | afterwards the profile is loaded: with the file's rules, none on a parse error, `"default"`'s rules when the file is missing (loading `"default"` first if needed), none when `"default"` itself is missing; only that name and possibly `"default"` are added; recursion is at most one level deep |
| Config.ResolvedCases | main.go:211-238 | the fallback chain: parsed rules; none on a parse error; a missing profile other than `"default"` takes `"default"`'s resolution; a missing `"default"` resolves to none |
| Config.Base | main.go:187 | the base name of a path is never empty; a non-empty path without separators is its own base name |
| Config.NatToString | main.go:189 | the `%d` rendering of a number is a non-empty string of digits without leading zeros |
| Config.NatToStringRoundTrip | main.go:189 | reading back the decimal rendering gives the number |
| Config.UnnamedLabelsDistinct | main.go:189 | unnamed sources at different positions get different labels |
| Session.ServerPassHash | main.go:113-115 | the stored hash is empty exactly when no password is configured, and otherwise is `H(password)` |
| Session.AuthMiddleware | main.go:243-264 | a request goes through if and only if no hash is stored or its session cookie equals the hash; a refused `/ws` request gets 401 and any other refused request is redirected to `/login` |
| Session.HandleLogin | main.go:266-297 | open mode redirects to `/`; a cookie is issued if and only if a POST's password hashes to the stored hash, and its value is that hash, site-wide and HTTP-only; a wrong password re-shows the form with the error flag; GET shows the form without it |
| Session.OpenMode | main.go:245-271 | with no password configured, every gated request goes through and `/login` redirects to `/` |
| Session.LoginGrantsAccess | main.go:278-291 | posting the configured password issues a cookie that then lets the same browser through the gate, for `/` and `/ws` alike |
| Session.WrongPasswordGrantsNothing | main.go:292-295 | a wrong password issues no cookie, so every later request is decided as before, and the form comes back flagged with an error |
| Session.UnauthenticatedRejected | main.go:251-260 | with a password configured and no matching cookie, `/ws` gets 401 instead of a redirect, and any other path is redirected to `/login` |

## Left out

- Goroutines, the `broadcast` channel and `sync.Mutex`: each locked region is one atomic method. Interleavings between regions are not modelled.
- The race between reading a file's last lines and starting to follow it from its end: lines appended in between are lost. This is a timing matter and is not modelled.
- WebSocket upgrade, reads and writes, and the HTTP server and routing: network I/O. `WriteMessage` is an append to the ghost `sent` log, and a failed write changes nothing.
- Following a file with `nxadm/tail`, including rotation and polling, and the `bufio.Scanner` line-length limit. The file is given as its sequence of lines, or none when it cannot be opened.
- Register: the map-iteration order that Go picks at random is an input `order`, not a choice made inside the method.
- SHA-256 and hex encoding are a foreign library, taken as a parameter `H` that returns 64 characters.
- `filepath.Base` is not part of the source. It is modelled for `/`-separated paths only, without volume names.
- Parsing `dashboard.json` is left out: JSON and the array-versus-object dispatch are done by a library. The model starts from the parsed entries.
- Profile files are an abstract map from profile name to file. How `filepath.Join` resolves a name that contains separators is not modelled.
- `serveHome` and the HTML templates (`main.go:348-377`), flag parsing, and log and console output: rendering and plumbing.
- The expiry of the session cookie (24 hours from `time.Now()`): wall-clock time.
- Request cookies are a map from name to value, so a request that carries two cookies with the same name is not modelled.

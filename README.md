# Prediction cache of the mafia prediction bot

The bot answers the `/prediction` command with an image from a directory. It keeps
one prediction per Telegram user in a process-wide dictionary. A prediction is a
file name plus an expiry time (`PredictionData`). On a request the bot looks up
the user. If the stored entry expires strictly after the current time, the bot
sends the same file again with the "do not try to change it" caption. Otherwise
it drops the entry and draws a file at random from the directory listing. It then
sends that file with the "my prediction for you" caption and stores it with an
expiry time `PREDICTION_DURATION_IN_SECONDS` (default 10) after the moment it was
made.

The model is one module, `Prediction` (`prediction.dfy`):

- `Step` is one request as a function of the store, the request and the
  duration. It returns the new store and the outcome: a photo reply with its
  caption, or `EmptyListing` when the random choice meets an empty directory.
- `Run` handles a sequence of requests one after another.
- `PredictionStore` is the dictionary as a class with a `map` field. Its method
  `ChoosePrediction` updates the map in place, as the handler does.
- The clock is two integer parameters, both in seconds. `now` is the time read
  for the expiry check (main.py:60). `createdAt` is the time read when the new
  entry is built (main.py:65). The model assumes no order between the two.
- The directory listing is the parameter `listing`. The index that
  `random.choice` would return is the parameter `pick`.

Expiry is a fixed duration after creation, and every prediction is an image file
name.

## Model

| member | source | states |
|---|---|---|
| Prediction.Step | main.py:58-67 | The reply reuses the stored file exactly when the user has an entry whose expiry is strictly after `now`, so an entry expiring at `now` counts as expired. On a hit the store is unchanged. On a miss with a non-empty listing, the user's new entry is `listing[pick]` with expiry `createdAt + duration`, and that file is sent with the new-prediction caption. On a miss with an empty listing, the user's entry is removed, nothing is inserted, and the outcome is the failure. A newly drawn file is always an element of the listing. Other users' entries are unchanged. The key set grows by at most the caller's id. |
| Prediction.Run | main.py:56-67 | Over any sequence of requests, users who sent no request keep exactly their entries. The store gains only the keys of users who asked. There is one outcome per request. |
| Prediction.RunDrawsFromDirectory | main.py:59-67 | If the directory listing stays the same and every stored file is in it, then after any run every stored file is in it and every file sent is in it. |
| Prediction.RunReusesLiveEntry | main.py:59-61 | Take an entry that expires after every request its user makes in a run. That entry stays in the store unchanged. Each of those requests gets its file back with the reuse caption, whatever other users do meanwhile. |
| Prediction.StableWithinWindow | main.py:60-67 | After a miss served from a non-empty listing, each later request by the same user before `createdAt + duration` gets the same file `listing[pick]` with the reuse caption. The user's entry stays `listing[pick]` with expiry `createdAt + duration`. Requests by other users may be interleaved. |
| Prediction.PredictionStore.constructor | main.py:40 | The store starts empty, with the configured duration. |
| Prediction.PredictionStore.Default | main.py:25 | A store started without a configured duration is empty and uses the default duration of 10 seconds. |
| Prediction.PredictionStore.ChoosePrediction | main.py:56-67 | The map after the in-place update and the returned outcome are exactly what `Step` gives for the old map, so on each path (hit, miss, empty listing) the new map is the one `Step`'s contract states. Entries of other users are unchanged. |
| Prediction.TwoRequestsInWindow | main.py:40-67 | On a freshly started bot, a user's first request draws `listing[pick1]`. A second request before the first one's expiry gets that same file back with the reuse caption. |

## Left out

- The aiogram wiring is not modelled: the dispatcher, the handler decorators, the `/start` greeting, the bot commands and polling. These are calls into the messaging library.
- The replies themselves (`reply_photo`, `FSInputFile`) are not modelled. They appear only as the `Reply` value of file name and caption.
- `abs_file_path` is not modelled, because resolving a path touches the filesystem.
- Reading the environment and parsing `PREDICTION_DURATION_IN_SECONDS` is not modelled. The duration is a constructor parameter and may be negative, as `int()` accepts negative numbers. The default 10 is the constant `DefaultPredictionDurationInSeconds`, used by the constructor `PredictionStore.Default`.
- Step: does not model the bounded range of Python's `datetime`. At main.py:65, `timedelta(seconds=D)` raises `OverflowError` when the duration exceeds 999999999 days in size. Adding it to the current time raises the same error once the sum leaves the years 1 to 9999. Both errors come after the pop at main.py:63. So with such a duration every miss removes the user's entry, stores nothing and sends nothing. `Step` instead stores `createdAt + duration` and sends the new file.
- PredictionStore.ChoosePrediction: inherits from `Step` the unbounded time arithmetic described in the line above.
- `os.listdir` and `random.choice` are replaced by the `listing` and `pick` parameters. A directory that cannot be listed is not a separate case. In the source it raises after the pop, which leaves the store as an empty listing does.
- The clock is two integer second counts. Sub-second precision of `datetime` and any time-zone handling are not modelled.
- Async interleaving is not modelled. The handler inserts the new entry only after the reply has been awaited. So a failed send leaves no entry, and two requests from the same user may interleave. Each call is modelled as atomic, with the insert taking place.
- The unused set `PREDICTION_FILES_IN_USE` is not modelled.

# haitwu: timeline-to-haiku annotation and the Twitter cache adapter

This project models the core of `main.py` in haitwu, a small App Engine app that shows the haikus hidden in a Twitter user's public timeline. The model has two parts:

- **`UserPage.get`**. The handler asks the Twitter API for up to 300 timeline entries of a screen name. Any failure counts as an empty timeline. The page's user is the first entry's user. With no entries it is a stand-in user whose name and screen name are both the requested screen name. Then the handler walks the entries in order. Each entry whose text yields at least one haiku match adds one record: the first match's lines, the entry, and the date of the entry's timestamp.
- **`TwitterCache`**. This adapter over memcache puts every caller key under the namespace `twitter_`. It stores each value together with the time it was written. `Get` and `GetCachedTime` return the two halves of the stored pair.

Files:

- `wrappers.dfy`: `Option`.
- `twitter.dfy`: the value types of the external `twitter` library (`User`, `Entry`, `Date`, `TimelineFetch`).
- `cache.dfy`: module `Cache`. It holds the class `TwitterCache`, whose `store: map<string, (D, int)>` field stands for the memcache service. It also holds specification functions over that map and lemmas about set, get and remove.
- `user_page.dfy`: module `UserPage`. `GetUserPage` is the handler as a method with a loop. It is proved equal to the recursive filter-map `CollectHaikus`, and lemmas pin down that function's output exactly.

The external collaborators are parameters:

- `getUserTimeline: (string, nat) -> TimelineFetch` stands for `twitter.Api.GetUserTimeline`. Its outcome is either the entries or `Failed`, which covers any exception.
- `findHaikus: string -> seq<seq<string>>` stands for `haikufinder.find_haikus`.
- `fromTimestamp: int -> Date` stands for `datetime.date.fromtimestamp`.
- The `now` argument of `Set` stands for `time.time()`.

A few facts about `main.py` itself:

- The timeline request passes `count=300` (main.py:58).
- `memcache.set` is called without an expiry (main.py:26), so the adapter sets no time-to-live.
- `main.py` has no rate-limit check and no error flag on the page variables. A failed fetch is simply an empty timeline (main.py:57-61).
- The handler does not cache its own result. The cache is handed to the `twitter` library (main.py:52), which uses it internally.

Some helper functions model single source lines and serve as the vocabulary of the contracts in the table: `UserPage.TimelineOrEmpty` (main.py:57-61), `UserPage.PlaceholderUser` (main.py:69), `UserPage.HaikuOf` (main.py:77-82), `Cache.CachedData` (main.py:18-22) and `Cache.CachedTime` (main.py:31-35).

## Model

| member | source | states |
|---|---|---|
| UserPage.GetUserPage | main.py:57-83 | timeline = fetched entries, or empty on any fetch failure; user is timeline[0].user when non-empty, else the stand-in with name and screen name equal to the requested one; haikus equal CollectHaikus of the timeline; on a failed fetch the result is exactly (stand-in user, no haikus) |
| UserPage.CollectHaikus | main.py:73-83 | no more haikus than entries; every haiku's entry is an entry of the timeline whose match list is non-empty, its lines are that first match and its date is fromTimestamp of the entry's seconds |
| UserPage.MatchingIndicesSpec | main.py:74-76 | the contributing positions are strictly increasing (timeline order), lie inside the timeline, and a position contributes if and only if its entry's match list is non-empty |
| UserPage.CollectHaikusAt | main.py:74-83 | the number of haikus equals the number of contributing positions, and the k-th haiku is the record of the k-th contributing entry (first match, that entry, its date) |
| UserPage.CollectHaikusCount | main.py:73-83 | the number of haikus equals the number of entries whose match list is non-empty |
| UserPage.CollectHaikusAppend | main.py:74-83 | walking a + b collects a's haikus followed by b's: the walk is order-preserving and entry-local |
| UserPage.NoMatchContributesNothing | main.py:76 | inserting an entry with an empty match list anywhere leaves the haiku list unchanged |
| Cache.CacheKey | main.py:15-16 | the store key is Prefix "twitter_" followed by exactly the caller's key |
| Cache.CacheKeyInjective | main.py:15-16 | two caller keys share a store key if and only if they are equal |
| Cache.TwitterCache.Get | main.py:18-22 | returns the data half of the pair stored under the prefixed key, and None exactly when that key is absent |
| Cache.TwitterCache.Set | main.py:24-26 | the store afterwards is the old store with the prefixed key mapped to (data, now), all else unchanged |
| Cache.TwitterCache.Remove | main.py:28-29 | the store afterwards is the old store without the prefixed key, all else unchanged |
| Cache.TwitterCache.GetCachedTime | main.py:31-35 | returns the time half of the pair stored under the prefixed key, and None exactly when that key is absent |
| Cache.SetThenGet | main.py:18-35 | after Set(k, d) at time t, Get(k) is d and GetCachedTime(k) is t |
| Cache.RemoveThenGet | main.py:18-35 | after Remove(k), Get(k) and GetCachedTime(k) are both None |
| Cache.SetLeavesOtherKeys | main.py:15-26 | Set(k, ...) leaves Get and GetCachedTime of every other caller key unchanged |
| Cache.RemoveLeavesOtherKeys | main.py:15-29 | Remove(k) leaves Get and GetCachedTime of every other caller key unchanged |

## Left out

- `HomePage`, `AboutPage`, template rendering, the redirect, the URL routing table and `run_wsgi_app` (main.py:37-48, 88-109): web plumbing with no logic of its own. `GetUserPage` returns the template variables instead of rendering them.
- The inside of `twitter.Api.GetUserTimeline` (network fetch, JSON parsing, its own use of the cache): an external library, modelled as an opaque success-or-failure outcome. `twitter.Api(cache=cache)` (main.py:52) is therefore not modelled.
- `haikufinder.find_haikus`: an external algorithm, taken as a total function parameter. If it raised, the source would propagate the exception; the model does not capture that.
- `datetime.date.fromtimestamp` and `time.time()`: these depend on the clock and the time zone. They become an opaque date function and an integer time argument. The float seconds of `time.time()` are modelled as an integer.
- If `entry.created_at_in_seconds` or `datetime.date.fromtimestamp` raised (main.py:77, 81), for an unparseable `created_at` or a timestamp out of range, the exception would leave `get`. The model takes both as total: `createdAtInSeconds` is a plain integer and `fromTimestamp` a total function.
- memcache eviction, expiry and races between requests: the store is an ideal map owned by one `TwitterCache` object. The model starts it empty rather than shared with other users of memcache.
- Cache.TwitterCache.Get: Python cannot tell a stored `None` from a miss. The model's generic data type never confuses the two.
- `logging` calls (main.py:60, 67, 70, 86): they have no behavioural effect.

# profile_hunt in Dafny

A model of the core of `profile_hunt`, a LinkedIn people-search scraper. The
scraper takes one company name and crosses it with a fixed list of keywords.
For each keyword it searches for people and walks a bounded number of result
pages. It extracts name, headline, location and profile URL from every
result, and keeps one entry per profile, recording every keyword the profile
was found under. It then writes the entries as CSV rows whose keyword column
is the sorted keyword set joined by `", "`. Before searching it signs in. It
replays stored session cookies with two unsupported attributes removed, and
falls back to a username/password login with an optional two-factor code.
After a credential submission that shows no two-factor challenge, or after
an accepted code, it saves the session cookies.

The browser is replaced by what it shows:

- A result page is a sequence of candidate links. Each link has its DOM
  lookups already resolved to optional values (name element, result
  container, headline and location elements), plus the outcome of trying to
  click "Next".
- A search is, for every URL, the page seen after each number of clicks.
- The login flow reads an `Observations` record: the stored cookies, the
  URLs after each navigation and submission, and the typed code. It also
  records whether a pin field is present after each submission, and
  whether the pin field can be found by name and by id. The presence check
  (login.py:85) and the lookup by name (login.py:91) are separate
  observations, because the page can change while the code prompt waits.
- What the login code does to the browser and to disk is recorded as a
  trace of actions.

Modules and files:

| file | module | models |
|---|---|---|
| `wrappers.dfy` | `Wrappers` | `Option` |
| `text.dfy` | `Text` | `str.strip()`, `split("?", 1)[0]`, `replace`, substring `in`, `isdigit`/`int`, `sep.join`, over ASCII |
| `ordering.dfy` | `Ordering` | Python's string order and `sorted()` of a set |
| `extract.dfy` | `Extract` | `parse_contact_cards` |
| `aggregate.dfy` | `Aggregate` | the `profiles` dictionary and the merge loop |
| `crawl.dfy` | `Crawl` | the query, search URL, `prompt_int`, page loop and keyword loop of `main` |
| `export.dfy` | `Export` | the output file name and the CSV rows |
| `session.dfy` | `Session` | `load_cookies` and `linkedin_login` as a state machine |

The login flow is modelled twice:

- `Session.Run` steps through the phases `LoadingCookies`, `CheckingFeed`,
  `SubmittingCredentials`, `AwaitingTwoFactor`, `VerifyingCode`,
  `SavingSession` and `Done`.
- `Session.DirectLogin` reads the nested conditionals of `linkedin_login`
  straight off.

`Session.LoginIsDirectLogin` proves the two agree on every input. The
properties are stated about `Session.Login`, the state machine.

Two behaviours of the code worth knowing:

- A profile seen again keeps the details of its first sighting: name,
  headline and location. Later sightings only add keywords
  (script.py:161-171).
- A cookie file that exists but cannot be unpickled is not treated as
  absent (login.py:29-35). `load_cookies` only checks that the file exists,
  and a failing `pickle.load` propagates. The model therefore has only "no
  file" and "a list of cookies".

## Model

| member | source | states |
|---|---|---|
| Extract.ProfileIdentity | script.py:58 | The identity is the link target cut before its first `?`: a prefix of the target, free of `?`, followed in the target by `?` when it is shorter, and the whole target when there is no `?`. |
| Extract.CardOf | script.py:56-70 | A link yields a record exactly when both its name element and its result container exist. |
| Extract.CardOfFields | script.py:57-97 | The record's URL is the cut identity (no `?`), its name is the stripped name text, and a missing headline or location element gives `""` while a present one gives its stripped text. |
| Extract.Contribution | script.py:56-97 | A link contributes at most one record, exactly one when it is usable, and then that record is the one `CardOf` builds from the link, with a URL free of `?`. |
| Extract.ParseCards | script.py:35-99 | At most one record per link, no record URL contains `?`, and with every link usable there is one record per link. |
| Extract.ParseCardsAppend | script.py:56-99 | Extraction distributes over concatenation of link lists, so records follow link order. |
| Extract.LinkContributionIsLocal | script.py:56-97 | A link's records depend on that link alone, and a skipped link leaves the other links' records exactly as if it were absent. |
| Extract.OneSkippedLinkOneFewerRecord | script.py:60-70 | Among usable links, one link without a name or container costs exactly one record. |
| Aggregate.MergeCard | script.py:159-171 | A new identity gets an entry with that record's details and keyword set `{kw}`. A known identity keeps its details and gains `kw`. Every other entry is unchanged, and the key set grows by the identity. |
| Aggregate.MergeBatchSpec | script.py:159-171 | After merging a page, the keys are the old keys plus the page's identities. Known identities keep their details and gain `kw` exactly when the page mentions them. New identities take the details of their first record on the page. |
| Aggregate.MergeBatchIdempotent | script.py:159-171 | Merging the same page again under the same keyword changes nothing. |
| Aggregate.MergeBatchesCommuteOnKeywords | script.py:141-171 | Two pages merged in either order give the same identities with the same keyword sets. |
| Aggregate.RunConcat | script.py:141-171 | Merging a run of pages can be resumed where it stopped: a run over two stretches is the second merged into the result of the first. |
| Aggregate.RunSnoc | script.py:152-171 | One more page at the end of a run is merged into the run's result. |
| Aggregate.FirstSighting | script.py:158-167 | The record chosen for an identity has that identity, and no earlier record in the sequence does. |
| Aggregate.RunFirstSighting | script.py:141-171 | An identity first seen during a run carries the name, headline and location of its first record across all the run's pages, whichever page that was on. |
| Aggregate.RunSpec | script.py:141-171 | A whole run adds exactly the identities seen. Each identity's keywords grow by exactly the keywords of the pages that saw it. Existing entries keep their details, and a new identity takes the details of its first record in the run. |
| Aggregate.RunOrderIndependent | script.py:141-171 | From an empty dictionary, the identities and keyword sets depend only on which pages were seen, not on their order. |
| Aggregate.RunFromEmpty | script.py:134-171 | From an empty dictionary, the keys are exactly the identities seen. Each keyword set is exactly the keywords the identity was found under, never empty, and contains only searched keywords. Each entry has the name, headline and location of the identity's first record in the run. |
| Crawl.CombinedQuery | script.py:142 | The query has no space, and each of its characters comes from `%20` or is a non-space character of the company or keyword. |
| Crawl.CombinedQueryOfWords | script.py:142 | A non-empty company and keyword that neither start nor end with whitespace are each escaped, with every space becoming `%20`, and are joined by one `%20`. Multi-word keywords such as "coast guard academy" are included. |
| Crawl.SearchUrl | script.py:145-148 | The URL starts with the fixed people-search prefix and ends with the fixed suffix, and the query can be read back from between them. |
| Crawl.PromptInt | script.py:102-111 | A stripped response that is not all digits (the empty one included) gives the default. A numeric one in range gives itself, below range gives the minimum, above range gives the maximum, and the result lies in range whenever the range is non-empty. With an empty range (maximum below minimum) a numeric response gives the minimum. |
| Crawl.PromptIntEchoes | script.py:107-110 | Typing the decimal form of an in-range number returns that number. |
| Crawl.PagesPerKeyword | script.py:123 | The pages-per-keyword answer lies in 1..10, and is 3 for a non-numeric response. |
| Crawl.PagesVisited | script.py:152-180 | At most the requested number of pages is read (none when it is not positive) and at least one otherwise. "Next" was clicked on every page before the last one read, and reading stops early only after a page whose "Next" was missing or failed. |
| Crawl.PagesVisitedUnique | script.py:152-180 | Any page count obeying that stopping rule is the one the loop reads. |
| Crawl.KeywordBatchesSnoc | script.py:152-157 | Reading one more page appends that page's records, tagged with the keyword, to the keyword's pages. |
| Crawl.KeywordBatchesStep | script.py:152-171 | Reading one more page merges that page's records into the profiles built so far. |
| Crawl.CrawlKeyword | script.py:152-180 | The page loop reads exactly `PagesVisited` pages, and the profiles are the earlier profiles with those pages merged in order. |
| Crawl.SearchBatchesKeyword | script.py:141-171 | Every page of a keyword's search is merged under that keyword. |
| Crawl.CrawlBatches | script.py:141-180 | Every page of the crawl is tagged with one of the searched keywords. |
| Crawl.Crawl | script.py:141-180 | The keyword loop builds the profiles of all pages of all searches, in keyword order. Its keys are exactly the identities seen, and each keyword set is exactly the keywords the identity was found under, all from the keyword list. |
| Export.OutFilename | script.py:130 | The file name starts with the company, every space written as `_`, followed by `_`. The timestamp comes just before the closing `.csv`, and the length leaves nothing else, so these parts fix the name completely. With a space-free timestamp the name has no space. |
| Export.OutFilenameSpacesAsUnderscores | script.py:130 | A company typed with underscores in place of its spaces gets the same file name. |
| Export.RenderKeywords | script.py:198 | The keyword column is the keyword set in sorted order joined by `", "`, so it depends on the set alone. |
| Export.RenderRow | script.py:191-199 | A row carries the entry's name, headline and location, the profile URL, and the rendered keyword column. |
| Export.RenderRows | script.py:183-199 | A file is written exactly when some profile was collected. There is one row per profile, a row for every profile, and every row matches its profile. |
| Ordering.SortSet | script.py:198 | Sorting a set gives a strictly increasing sequence with exactly the set's elements: the canonical sorted order. |
| Ordering.SortedUnique | script.py:198 | Two strictly increasing sequences with the same elements are equal, so the sorted order of a set is unique. |
| Ordering.LessTotal | script.py:198 | Python's string order is total on distinct strings. |
| Ordering.LessTransitive | script.py:198 | Python's string order is transitive. |
| Text.Strip | script.py:59 | `strip()` neither starts nor ends with whitespace, is no longer than its input, and leaves a string with non-whitespace ends unchanged. |
| Text.StripIdempotent | script.py:59 | Stripping an already stripped string changes nothing. |
| Text.StripKeepsMiddle | script.py:59 | `strip()` returns the slice of its input between a run of leading and a run of trailing whitespace. |
| Text.BeforeFirst | script.py:58 | `split(c, 1)[0]` is a prefix without `c`, followed by `c` when shorter, and the whole string when `c` is absent. |
| Text.BeforeFirstUnique | script.py:58 | Any prefix without `c` that is followed by `c`, or that is the whole string, is `split(c, 1)[0]`. |
| Text.ReplaceChar | script.py:130 | `replace(c, t)` turns a single `c` into `t` and keeps any other single character. Together with `Text.ReplaceCharAppend`, this determines the result on every string. It removes every `c` when `t` has none, keeps every other character, and leaves a string without `c` unchanged. |
| Text.ReplaceCharAppend | script.py:142 | `replace` distributes over concatenation. |
| Text.ContainsIffOccurs | login.py:73 | Substring `in` holds exactly when the pattern occurs at some position. |
| Text.ParseShowNat | script.py:108-109 | `int()` of the decimal digits of a number is that number. |
| Text.JoinAppend | script.py:198 | Joining two non-empty lists of parts back to back is joining each and putting one separator between. |
| Session.Sanitise | login.py:37-45 | A replayed cookie has exactly its attributes minus `sameSite` and `expiry`, each with its original value. |
| Session.SanitiseIdempotent | login.py:41-42 | Removing the two attributes twice is removing them once, and a cookie without them is replayed unchanged. |
| Session.LoadCookies | login.py:24-49 | It reports success exactly when a cookie file exists. With none it does nothing. Otherwise it opens the site root, adds each stored cookie in order with the two attributes removed, and refreshes. |
| Session.Step | login.py:59-105 | Every step makes progress, cookies are saved exactly in the saving phase, and the flow can end logged in only from that phase. |
| Session.Run | login.py:59-108 | A finished flow saves cookies exactly once when it ends logged in and never otherwise, and saving is then its last action. |
| Session.LoginIsDirectLogin | login.py:59-108 | The state machine and the straight reading of the nested conditionals produce the same outcome and trace on every input. |
| Session.LoginTrace | login.py:66-69 | The login trace is the cookie-loading part, then the feed visit, then what follows. |
| Session.InLoginTrace | login.py:66-73 | An action the cookie loader never performs is in the trace exactly when it is the feed visit or part of what follows it. |
| Session.FullLoginIffRedirected | login.py:72-107 | The stored session is kept exactly when the feed URL contains neither "login" nor "checkpoint". Then the trace is just the cookie loading and the feed visit. Credentials are typed exactly on a redirect. |
| Session.TwoFactorIffChallenge | login.py:84-97 | After the credentials, the code is entered exactly when a challenge shows and a pin field can be found. Without a challenge the flow ends logged in without two-factor, and a challenge with no pin field fails. |
| Session.PinLookupOrder | login.py:89-96 | The code goes into the pin field found by name exactly when the lookup by name at line 91 finds one. It goes into the field found by id exactly when that lookup fails and the id field exists. |
| Session.TwoFactorRejectedIffChallengePersists | login.py:100-105 | The flow fails with a rejected code exactly when the challenge is still showing after the code was entered, and then no cookie is saved. |
| Session.CookiesSavedOnlyAfterFullLogin | login.py:84-107 | Cookies are saved once, as the last action, exactly when the credentials were submitted after a redirect and then either no challenge showed or the code was accepted. A reused session, a missing pin field or a rejected code saves none. Whether the password was accepted plays no part. |
| Session.ReplayedCookiesAreSanitised | login.py:29-45 | Every replayed cookie lacks `sameSite` and `expiry`. With no cookie file, no cookie is replayed, the site root is never opened, and the flow starts at the feed. |
| Session.RejectedPasswordSaved | login.py:84-105 | As written, when the page after the credentials is still a login or checkpoint page with no challenge, the flow reports a login without two-factor and saves the cookies. |
| Session.CheckedLoginSavesOnlyAccepted | login.py:73-105 | With a refused password detected, cookies are saved exactly when the flow ends logged in. A login without a code means the page after the credentials showed neither a login nor a challenge. A login with a code means the page after the code showed no challenge. A refused password is reported as `PasswordRejected`. |
| Session.CheckedLoginAgrees | login.py:59-108 | Whenever the password was not refused, the flow with the check behaves exactly as the flow as written. |

Several functions carry no row of their own because lemmas with rows state their contracts:

- `Aggregate.MergeBatch` is the loop at script.py:159-171. Its contract is `Aggregate.MergeBatchSpec`, with `MergeBatchIdempotent` and `MergeBatchesCommuteOnKeywords`.
- `Aggregate.Run` is the merging across all pages of a run. It is described by `Aggregate.RunSpec`, `RunFirstSighting`, `RunConcat`, `RunSnoc`, `RunOrderIndependent` and `RunFromEmpty`.
- `Session.Login` is `linkedin_login`, run as the state machine `Session.Run`. `Session.LoginIsDirectLogin` and the `Session` rows from `LoginTrace` to `ReplayedCookiesAreSanitised` state its contract.
- `Session.CheckedLogin` is described by `CheckedLoginSavesOnlyAccepted` and `CheckedLoginAgrees`.
- `Text.Join` is described by `Text.JoinAppend` and `Export.RenderKeywords`.
- `Text.Contains` is described by `Text.ContainsIffOccurs`.
- `Text.ParseNat` is described by `Text.ParseShowNat` and `Crawl.PromptInt`.
- `Ordering.Less` is described by `Ordering.LessTotal`, `Ordering.LessTransitive` and `Ordering.SortSet`.

## Left out

- Crawl.Crawl: the model's browser never fails. In the source, a driver error in the keyword loop ends `main` with an exception, and no CSV is written (script.py:149-180, 183-204). This covers `driver.get`, `scroll_page`, and a stale element in `parse_contact_cards`. It excludes a missing element inside `parse_contact_cards` and a failed Next click, which the source handles.
- Browser control is not modelled: driver construction, the headless flag, scrolling, sleeps, XPath and CSS selector semantics, and `driver.quit()`. Pages and URLs are inputs.
- File and console I/O are not modelled. These are the pickle read and write, the CSV writer, `os.makedirs`, `.env` loading and all printing. The console answers and the timestamp are parameters.
- Only ASCII is modelled. `strip()` removes the ASCII characters Python treats as whitespace. `isdigit()` accepts only `0`-`9`, whereas Python also accepts other Unicode digits.
- The company prompt re-asks while the answer is blank (script.py:118-121). This loop is not modelled; the company is a parameter.
- `Crawl.Crawl` takes the keyword list as a parameter. `Crawl.Keywords` holds the nine keywords `main` uses.
- A link without an `href` makes `split` fail with an `AttributeError` that `parse_contact_cards` does not catch. Links always carry a target in the model.
- The username, password and submit-button lookups (login.py:79-81, 97) are assumed to succeed. Their `NoSuchElementException` is not modelled.
- A challenge with no pin field makes the lookup by id raise `NoSuchElementException` (login.py:93). The model reports it as the outcome `Failed(PinInputMissing)`. A rejected code raises an exception (login.py:102), modelled as `Failed(TwoFactorRejected)`.
- A cookie file that cannot be unpickled, and a cookie the browser refuses, are not modelled. Exceptions raised by `pop` are not modelled either, since a dictionary's `pop` with a default does not raise.
- Export.RenderRows: states which rows exist, not their order. The order of CSV rows is the dictionary's insertion order.
- The value `load_cookies` returns is modelled, but `linkedin_login` never reads it, so it influences nothing.

## Findings

| source | as written | input that shows it | evidently intended | confidence | as-written member | corrected member |
|---|---|---|---|---|---|---|
| login.py:84-105 | With no challenge after the credentials, the code goes straight to "login must have succeeded" and saves the cookies. It never checks that the password was accepted. | The feed redirects to a login page. After the credentials the browser is still on a page whose URL contains `login`, for example `https://www.linkedin.com/uas/login-submit`, and no `pin` field is present. The flow reports `LoggedIn(false)` and saves the logged-out cookies. | A page that still asks for a login after the credentials means the password was refused. The flow should fail, and it should save nothing. | medium, not executed | Session.RejectedPasswordSaved | Session.CheckedLoginSavesOnlyAccepted |

`Session.CheckedLogin` is the corrected flow, and `Session.CheckedLoginAgrees` shows that it differs from `Session.Login` only on a refused password. The rest of the model describes the code as written, so its login lemmas are about `Session.Login`.


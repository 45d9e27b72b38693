# hack-or-snooze local state, in Dafny

A model of the data layer of the hack-or-snooze browser client
(`js/models.js`): the `Story` value objects built from the API's records,
the `StoryList` that shows all stories and gains a new one at the front when
the user submits it, and the current `User`, whose list of favorites is kept
unique by `storyId` and changes only when the server confirms a favorite
or unfavorite with an exact message.

Every HTTP exchange becomes an input. The reply the server sent is a
parameter: the `story` record for `addStory`, the `message` field
(present with some string, or absent) for the favorite calls, and
`resp.ok` with the body for signup, login and session restore. The request a
method would send is returned as a value (`StoryRequest`, `FavoriteRequest`),
so "no request is sent" can be stated. Each awaited call is one atomic step.

Modules: `Wrappers` (optional values and results), `Stories` (the Story
value, `.map` over records and ids, the `storyId` filter, uniqueness of ids),
`Users` (class `User`, the favorite rules `Favorited`/`Unfavorited` and the
lemmas about them), `StoryLists` (class `StoryList`).

Where the code and its test file disagree, the model follows the code:

- `addFavorite` accepts only the message `"Favorite Added!"` (js/models.js:254);
  the tests reply `"Favorite Added Successfully!"` (js/models.test.js:161),
  which the code treats as a refusal (`UnconfirmedLeavesFavorites`).
- `removeFavorite` accepts only `"Favorite Removed!"` (js/models.js:299); the
  tests reply `"Favorite Deleted Successfully!"` (js/models.test.js:167).
- `addStory` does not add the story to the user's `ownStories`
  (js/models.js:107-109), although the tests expect it (js/models.test.js:134-135);
  `AddStory` states that the user is unchanged.
- `removeStory` and `isFavorite` (js/models.test.js:139, 257) do not exist in
  the code and are not modelled.

## Model

| member | source | states |
|---|---|---|
| Stories.NewStory | js/models.js:8-16 | the Story carries the record's storyId, title, author, url, username and createdAt unchanged and an empty updatedAt |
| Stories.NewStorySameIff | js/models.js:8-16 | two records give the same Story exactly when they agree on the six copied fields; the server's updatedAt is discarded |
| Stories.MapStories | js/models.js:133-134 | mapping records to stories keeps length and order: entry i is the Story built from record i |
| Stories.Ids | js/models.js:230 | the id list has one entry per story, entry i being story i's storyId |
| Stories.WithoutId | js/models.js:300-301 | the filter keeps exactly the entries whose storyId differs, is no longer than its input, and leaves no entry with that id |
| Stories.WithoutIdAppend | js/models.js:300-301 | the filter preserves order: filtering a concatenation concatenates the filtered parts |
| Stories.WithoutIdSingle | js/models.js:300-301 | on one entry the filter keeps it exactly when its storyId differs |
| Stories.WithoutAbsentId | js/models.js:300-301 | filtering by an id no entry has returns the list unchanged |
| Stories.WithoutIdKeepsUnique | js/models.js:300-301 | filtering a list with unique storyIds leaves them unique |
| Stories.WithoutPresentIdDropsOne | js/models.js:300-301 | with unique storyIds and the id present, the filter removes exactly one entry |
| Users.User.constructor | js/models.js:119-138 | username, name, createdAt and token are copied; favorites and ownStories are the records mapped to stories in order, and empty when omitted |
| Users.User.Signup | js/models.js:147-166 | a reply that is not ok throws "Signup failed"; otherwise a fresh user built from the reply's user record (stories as ownStories) and token |
| Users.User.Login | js/models.js:175-192 | a reply that is not ok throws "Login failed"; otherwise a fresh user built from the reply's user record and token |
| Users.User.LoginViaStoredCredentials | js/models.js:199-219 | a reply that is not ok gives null; otherwise a fresh user built from the record, holding the stored token |
| Users.User.AddFavorite | js/models.js:227-260 | a POST for the story's id is sent only when the id is absent from favorites; favorites gain the story at the end only for the reply message "Favorite Added!", otherwise stay; unique ids stay unique; no other field changes |
| Users.User.RemoveFavorite | js/models.js:272-307 | a DELETE is sent only when the id is present; only for the reply message "Favorite Removed!" are all entries with that id dropped, the rest kept in order; unique ids stay unique; no other field changes |
| Users.FavoritedKeepsUnique | js/models.js:224-258 | if no two favorites share a storyId before addFavorite, none do after, whatever the reply |
| Users.AddFavoriteIdempotent | js/models.js:230-232 | after a confirmed add the story is a favorite, and adding it again changes nothing and sends no request |
| Users.UnconfirmedLeavesFavorites | js/models.js:253-258 | a reply without the exact confirmation message (absent, or any other string) leaves favorites unchanged, for add and for remove |
| Users.ConfirmedAddAppends | js/models.js:254-255 | a confirmed add of a story whose id is new grows favorites by one, with the story last and the old entries first in place |
| Users.ConfirmedRemoveDrops | js/models.js:298-301 | after a confirmed removal no favorite has the id and every other favorite is kept; with unique ids exactly one entry goes |
| Users.AddThenRemoveRestores | js/models.js:227-307 | a confirmed add of a new story followed by its confirmed removal restores favorites exactly, order included |
| StoryLists.StoryList.constructor | js/models.js:50-52 | the list holds exactly the given stories |
| StoryLists.StoryList.GetStories | js/models.js:62-77 | a fresh list with one Story per record of the reply, in the server's order |
| StoryLists.StoryList.AddStory | js/models.js:88-110 | the request carries the user's token and the submitted story; a reply without a story throws and leaves the list; otherwise the Story built from the reply is returned and sits at index 0, the old stories following in order; the user is untouched |
| StoryLists.AddTwoStories | js/models.test.js:119-130 | two successful addStory calls leave the two new stories first, the later one at the front, followed by the old list |

## Left out

- `Story.getStory` (js/models.js:25-30): only a fetch followed by `new Story`, which `NewStory` models.
- `Story.getHostName` (js/models.js:39-42): it delegates to the browser's URL parser, which is not part of this model.
- Request bodies of signup and login (`{user: {username, password, name}}`), the URL of the session restore and all JSON encoding: network plumbing; `LoginViaStoredCredentials` therefore has no username parameter.
- Fields that are `undefined` in a record: every story and user field is a string; only the two user lists and the reply's `story` and `message` may be absent.
- Aliasing: `addFavorite` pushes the caller's Story object itself; stories are values here, so sharing between the story list and the favorites is not modelled.
- Reply bodies that are not JSON, which make `response.json()` reject: every reply is taken as parsed.
- The text of the TypeError thrown by `new Story(undefined)`: engine-specific; the model gives a fixed message.
- Interleaving of overlapping requests: each awaited call is one atomic step.
- `js/user.js`, `js/stories.js`, `js/nav.js`, `js/main.js`, `js/dom.js`: DOM rendering, event wiring and `localStorage`, which are I/O.
- `console.debug`/`console.log`/`console.error` calls: logging only.

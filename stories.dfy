/** Story value objects (js/models.js, class Story) and the operations on
    sequences of stories that the story list and the user's favorites share. */
module Stories {

  /** A story record as the API sends it: `data.story`, an entry of
      `data.stories`, or an entry of a user's `favorites` or `stories`. */
  datatype StoryData = StoryData(
    storyId: string,
    title: string,
    author: string,
    url: string,
    username: string,
    createdAt: string,
    updatedAt: string)

  /** A Story instance. Stories are never edited locally, so a value. */
  datatype Story = Story(
    storyId: string,
    title: string,
    author: string,
    url: string,
    username: string,
    createdAt: string,
    updatedAt: string)

  /** `new Story(data)`: copies six fields of the record and resets
      `updatedAt`, whatever the record said. */
  function NewStory(data: StoryData): (s: Story)
    ensures s.storyId == data.storyId && s.title == data.title
    ensures s.author == data.author && s.url == data.url
    ensures s.username == data.username && s.createdAt == data.createdAt
    ensures s.updatedAt == ""
  {
    Story(data.storyId, data.title, data.author, data.url, data.username, data.createdAt, "")
  }

  /** Two records agree on the six fields the constructor keeps. */
  predicate SameStoryFields(a: StoryData, b: StoryData) {
    a.(updatedAt := "") == b.(updatedAt := "")
  }

  /** Two records give the same Story exactly when they agree on the six
      copied fields: the server's `updatedAt` is never seen. */
  lemma NewStorySameIff(a: StoryData, b: StoryData)
    ensures NewStory(a) == NewStory(b) <==> SameStoryFields(a, b)
  {
  }

  /** `records.map((s) => new Story(s))`: one Story per record, in order. */
  function MapStories(records: seq<StoryData>): (stories: seq<Story>)
    ensures |stories| == |records|
    ensures forall i :: 0 <= i < |records| ==> stories[i] == NewStory(records[i])
  {
    if records == [] then [] else [NewStory(records[0])] + MapStories(records[1..])
  }

  /** `stories.map(story => story.storyId)`. */
  function Ids(stories: seq<Story>): (ids: seq<string>)
    ensures |ids| == |stories|
    ensures forall i :: 0 <= i < |stories| ==> ids[i] == stories[i].storyId
  {
    if stories == [] then [] else [stories[0].storyId] + Ids(stories[1..])
  }

  /** No two entries share a storyId. */
  predicate UniqueIds(stories: seq<Story>) {
    forall i, j :: 0 <= i < j < |stories| ==> stories[i].storyId != stories[j].storyId
  }

  /** `stories.filter(s => s.storyId !== id)`: drops every entry with that
      storyId and keeps the others. */
  function WithoutId(stories: seq<Story>, id: string): (kept: seq<Story>)
    ensures |kept| <= |stories|
    ensures forall s :: s in kept <==> s in stories && s.storyId != id
  {
    if stories == [] then []
    else if stories[0].storyId != id then [stories[0]] + WithoutId(stories[1..], id)
    else WithoutId(stories[1..], id)
  }

  /** Appending lists appends their ids. */
  lemma IdsAppend(a: seq<Story>, b: seq<Story>)
    ensures Ids(a + b) == Ids(a) + Ids(b)
  {
  }

  /** Filtering out an id nobody has changes nothing. */
  lemma {:induction false} WithoutAbsentId(stories: seq<Story>, id: string)
    requires id !in Ids(stories)
    ensures WithoutId(stories, id) == stories
  {
    if stories != [] {
      assert Ids(stories) == [stories[0].storyId] + Ids(stories[1..]);
      WithoutAbsentId(stories[1..], id);
      assert stories == [stories[0]] + stories[1..];
    }
  }

  /** The filter works element by element and keeps order: filtering a
      concatenation concatenates the filtered parts. */
  lemma {:induction false} WithoutIdAppend(a: seq<Story>, b: seq<Story>, id: string)
    ensures WithoutId(a + b, id) == WithoutId(a, id) + WithoutId(b, id)
  {
    if a == [] {
      assert a + b == b;
    } else {
      assert (a + b)[0] == a[0];
      assert (a + b)[1..] == a[1..] + b;
      WithoutIdAppend(a[1..], b, id);
    }
  }

  /** On a single entry the filter keeps it exactly when its id differs. */
  lemma WithoutIdSingle(s: Story, id: string)
    ensures WithoutId([s], id) == if s.storyId == id then [] else [s]
  {
  }

  /** A suffix of a list with unique ids has unique ids. */
  lemma UniqueTail(stories: seq<Story>)
    requires stories != [] && UniqueIds(stories)
    ensures UniqueIds(stories[1..])
    ensures stories[0].storyId !in Ids(stories[1..])
  {
  }

  /** Putting an entry whose id is new in front keeps ids unique. */
  lemma ConsUnique(s: Story, stories: seq<Story>)
    requires UniqueIds(stories) && s.storyId !in Ids(stories)
    ensures UniqueIds([s] + stories)
  {
  }

  /** Filtering keeps ids unique. */
  lemma {:induction false} WithoutIdKeepsUnique(stories: seq<Story>, id: string)
    requires UniqueIds(stories)
    ensures UniqueIds(WithoutId(stories, id))
  {
    if stories != [] {
      var tail := stories[1..];
      UniqueTail(stories);
      WithoutIdKeepsUnique(tail, id);
      var rest := WithoutId(tail, id);
      if stories[0].storyId != id {
        ConsUnique(stories[0], rest);
      }
    }
  }

  /** When ids are unique and the id is present, the filter drops exactly
      one entry. */
  lemma {:induction false} WithoutPresentIdDropsOne(stories: seq<Story>, id: string)
    requires UniqueIds(stories) && id in Ids(stories)
    ensures |WithoutId(stories, id)| == |stories| - 1
  {
    UniqueTail(stories);
    assert Ids(stories) == [stories[0].storyId] + Ids(stories[1..]);
    if stories[0].storyId == id {
      WithoutAbsentId(stories[1..], id);
    } else {
      WithoutPresentIdDropsOne(stories[1..], id);
    }
  }
}

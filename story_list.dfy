/** The list of stories the page shows (js/models.js, class StoryList). */
module StoryLists {
  import opened Wrappers
  import opened Stories
  import opened Users

  /** The story a user submits: `{title, author, url}`. */
  datatype StoryInput = StoryInput(title: string, author: string, url: string)

  /** The body of `POST /stories`: `{token, story}`. */
  datatype StoryRequest = StoryRequest(token: string, story: StoryInput)

  class StoryList {
    var stories: seq<Story>

    constructor (stories: seq<Story>)
      ensures this.stories == stories
    {
      this.stories := stories;
    }

    /** `StoryList.getStories`: one Story per record of the reply's
        `stories`, in the order the server sent them. */
    static method GetStories(records: seq<StoryData>) returns (list: StoryList)
      ensures fresh(list)
      ensures |list.stories| == |records|
      ensures forall i :: 0 <= i < |records| ==> list.stories[i] == NewStory(records[i])
    {
      list := new StoryList(MapStories(records));
    }

    /** `addStory(user, newStory)`: sends the user's token with the story;
        a reply without a `story` makes `new Story(undefined)` throw and
        leaves the list as it was; otherwise the new Story goes to the front
        and is returned. The user, and its own stories, are not touched. */
    method AddStory(user: User, newStory: StoryInput, reply: Option<StoryData>)
      returns (request: StoryRequest, result: Result<Story>)
      modifies this`stories
      ensures request == StoryRequest(user.loginToken, newStory)
      ensures reply.None? ==> result.Err? && stories == old(stories)
      ensures reply.Some? ==> result == Ok(NewStory(reply.value))
                              && |stories| == |old(stories)| + 1
                              && stories[0] == result.value && stories[1..] == old(stories)
      ensures unchanged(user)
    {
      request := StoryRequest(user.loginToken, newStory);
      if reply.None? {
        return request, Err("TypeError: cannot destructure an undefined story");
      }
      var newStoryInstance := NewStory(reply.value);
      stories := [newStoryInstance] + stories;
      result := Ok(newStoryInstance);
    }
  }

  /** Two stories added one after the other come out most recent first,
      ahead of everything that was there. */
  method AddTwoStories(list: StoryList, user: User, first: StoryData, second: StoryData, a: StoryInput, b: StoryInput)
    modifies list
    ensures list.stories == [NewStory(second), NewStory(first)] + old(list.stories)
  {
    var _, r1 := list.AddStory(user, a, Some(first));
    var _, r2 := list.AddStory(user, b, Some(second));
  }
}

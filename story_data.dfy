/** The values the story screen is built from. */
module StoryData {

  /** One timed segment of a user's story. Only its url, its timestamp and
      whether it plays as a video matter to the screen. */
  datatype Story = Story(url: string, storyDate: int, isVideo: bool)

  /** One page of the pager: a user and the ordered segments of their story. */
  datatype StoryUser = StoryUser(username: string, profilePicUrl: string, stories: seq<Story>)
}

/** The deterministic parts of agents/content_generation_agent.py: splitting
    the model's reply into a title and a body, naming the story, and listing
    the personal details it was built around. The model call is an input:
    its reply text. */
module ContentGeneration {
  import opened Wrappers
  import opened Models
  import opened Text

  /** The title and body `generate_story` takes from the reply. */
  datatype StoryText = StoryText(title: string, content: string)

  /** The first line without "Title:" and "#", stripped. */
  function TitleOf(line: string): (title: string)
    requires '\n' !in line
    ensures '#' !in title && '\n' !in title
    ensures title == [] || (!IsSpace(title[0]) && !IsSpace(title[|title| - 1]))
  {
    var first := RemoveAll(RemoveAll(line, "Title:"), "#");
    StripKeepsChars(first);
    RemoveAllKeepsAbsent(line, "Title:", '\n');
    RemoveAllKeepsAbsent(RemoveAll(line, "Title:"), "#", '\n');
    Strip(first)
  }

  /** `lines = reply.strip().split('\n', 1)`, then the title of the first
      line, and as the body the stripped rest, or the whole reply, unstripped,
      when it has a single line. */
  function SplitStory(reply: string): (r: StoryText)
    ensures '#' !in r.title && '\n' !in r.title
    ensures r.title == [] || (!IsSpace(r.title[0]) && !IsSpace(r.title[|r.title| - 1]))
    ensures '\n' !in Strip(reply) ==> r.content == reply
  {
    var lines := SplitOnce(Strip(reply), '\n');
    if |lines| > 1 then
      StoryText(TitleOf(lines[0]), Strip(lines[1]))
    else
      StoryText(TitleOf(lines[0]), reply)
  }

  /** A reply of several lines: the content is the stripped text after the
      first line break. */
  lemma StoryContentAfterFirstLine(reply: string)
    requires '\n' in Strip(reply)
    ensures exists first, rest :: Strip(reply) == first + "\n" + rest && '\n' !in first
                                  && SplitStory(reply).content == Strip(rest)
  {
    var text := Strip(reply);
    var lines := SplitOnce(text, '\n');
    assert |lines| == 2 && text == lines[0] + "\n" + lines[1];
    assert SplitStory(reply).content == Strip(lines[1]);
  }

  /** The title is the reply's first line, once stripped, without "Title:"
      and "#", stripped again. */
  lemma StoryTitleFromFirstLine(reply: string)
    ensures exists first, rest :: (Strip(reply) == first + "\n" + rest || (Strip(reply) == first && rest == []))
                                  && '\n' !in first
                                  && SplitStory(reply).title == Strip(RemoveAll(RemoveAll(first, "Title:"), "#"))
  {
    var lines := SplitOnce(Strip(reply), '\n');
    var first := lines[0];
    var rest: string := if |lines| > 1 then lines[1] else [];
    assert '\n' !in first;
    assert Strip(reply) == first + "\n" + rest || (Strip(reply) == first && rest == []);
    assert SplitStory(reply).title == Strip(RemoveAll(RemoveAll(first, "Title:"), "#"));
  }

  /** Removing a pattern never brings in a character that was not there. */
  lemma {:induction false} RemoveAllKeepsAbsent(s: string, pat: string, c: char)
    requires |pat| > 0 && c !in s
    ensures c !in RemoveAll(s, pat)
    decreases |s|
  {
    if StartsWith(s, pat) {
      RemoveAllKeepsAbsent(s[|pat|..], pat, c);
    } else if s != [] {
      RemoveAllKeepsAbsent(s[1..], pat, c);
    }
  }

  /** `story_{concept}_{user_id}`, with "default" when no profile is known. */
  function StoryId(concept: string, profile: Option<UserProfile>): (id: string)
    ensures profile.Some? ==> id == "story_" + concept + "_" + profile.value.userId
    ensures profile.None? ==> id == "story_" + concept + "_default"
  {
    "story_" + concept + "_" + (if profile.Some? then profile.value.userId else "default")
  }

  /** The parts of the reader context `_extract_personalization_elements`
      reads; a missing entry is None, and an empty top category counts as
      missing. */
  datatype Context = Context(hobbies: Option<seq<string>>, interests: Option<seq<string>>, topCategory: Option<string>)

  /** Every candidate element, in the order they are gathered. */
  function Candidates(ctx: Context): seq<string> {
    (if ctx.hobbies.Some? then ctx.hobbies.value else [])
    + (if ctx.interests.Some? then ctx.interests.value else [])
    + (if ctx.topCategory.Some? && ctx.topCategory.value != "" then [ctx.topCategory.value] else [])
  }

  /** `_extract_personalization_elements`: the gathered elements, cut to five. */
  method ExtractPersonalizationElements(ctx: Context) returns (elements: seq<string>)
    ensures |elements| <= 5
    ensures |elements| == if |Candidates(ctx)| < 5 then |Candidates(ctx)| else 5
    ensures elements == Candidates(ctx)[..|elements|]
  {
    elements := [];
    if ctx.hobbies.Some? && ctx.hobbies.value != [] {
      elements := elements + ctx.hobbies.value;
    }
    if ctx.interests.Some? && ctx.interests.value != [] {
      elements := elements + ctx.interests.value;
    }
    if ctx.topCategory.Some? && ctx.topCategory.value != "" {
      elements := elements + [ctx.topCategory.value];
    }
    assert elements == Candidates(ctx);
    if |elements| > 5 {
      elements := elements[..5];
    }
  }
}

/**
 * The personalised greeting: three lookup tables with a fallback each, and
 * the heading, vibe and closing lines built from them and the form's record.
 */
module PersonalizedMessage {
  import opened GreetingForm

  /** Lines 27-32. */
  const Greetings: map<string, string> := map[
    "morning" := "Good morning",
    "afternoon" := "Good afternoon",
    "evening" := "Good evening",
    "night" := "Good night"]

  /** Lines 37-44. */
  const MoodMessages: map<string, string> := map[
    "happy" := "Your happiness is " + "contagious! Keep " + "spreading those " + "positive vibes! \U{1F60A}",
    "excited" := "Your excitement is " + "amazing! Channel " + "that energy into " + "something " + "wonderful! \U{26A1}",
    "calm" := "Your calmness is a " + "superpower. Enjoy " + "this peaceful " + "moment! \U{1F9D8}\U{200D}\U{2640}\U{FE0F}",
    "motivated" := "Your motivation " + "will take you " + "places! Go chase " + "those dreams! \U{1F680}",
    "creative" := "Your creativity " + "knows no bounds! " + "Let your " + "imagination run " + "wild! \U{1F3A8}",
    "peaceful" := "Your peaceful " + "energy is " + "beautiful. Take " + "time to appreciate " + "this moment! \U{262E}\U{FE0F}"]

  /** Lines 49-57. */
  const ColorEmojis: map<string, string> := map[
    "blue" := "\U{1F499}",
    "green" := "\U{1F49A}",
    "purple" := "\U{1F49C}",
    "pink" := "\U{1F497}",
    "orange" := "\U{1F9E1}",
    "red" := "\U{2764}\U{FE0F}",
    "yellow" := "\U{1F49B}"]

  const DefaultGreeting: string := "Hello"
  const DefaultMoodMessage: string := "You're amazing just as you are!"
  const DefaultEmoji: string := "\U{1F4AB}"

  /** `getTimeGreeting`: a known time of day is greeted with "Good" and its name; any other with "Hello". */
  function TimeGreeting(timeOfDay: string): (r: string)
    ensures r != []
    ensures timeOfDay in Greetings ==> r == "Good " + timeOfDay
    ensures timeOfDay !in Greetings ==> r == DefaultGreeting
  {
    if timeOfDay in Greetings then Greetings[timeOfDay] else DefaultGreeting
  }

  /** `getMoodMessage`: each known mood has its sentence; any other mood the fallback. */
  function MoodMessage(mood: string): (r: string)
    ensures r != []
    ensures mood in MoodMessages ==> r == MoodMessages[mood] && r != DefaultMoodMessage
    ensures mood !in MoodMessages ==> r == DefaultMoodMessage
  {
    if mood in MoodMessages then MoodMessages[mood] else DefaultMoodMessage
  }

  /** `getColorEmoji`: each known colour has its heart; any other colour the fallback emoji. */
  function ColorEmoji(color: string): (r: string)
    ensures r != []
    ensures color in ColorEmojis ==> r == ColorEmojis[color] && r != DefaultEmoji
    ensures color !in ColorEmojis ==> r == DefaultEmoji
  {
    if color in ColorEmojis then ColorEmojis[color] else DefaultEmoji
  }

  /** Different moods get different sentences. */
  lemma MoodMessagesAreDistinct(m1: string, m2: string)
    requires m1 in MoodMessages && m2 in MoodMessages && m1 != m2
    ensures MoodMessage(m1) != MoodMessage(m2)
  {
  }

  /** Different colours get different emoji. */
  lemma ColorEmojisAreDistinct(c1: string, c2: string)
    requires c1 in ColorEmojis && c2 in ColorEmojis && c1 != c2
    ensures ColorEmoji(c1) != ColorEmoji(c2)
  {
  }

  /** Lines 69-70: the greeting, `", "`, the name, `"!"` and the colour's emoji. */
  function Heading(d: GreetingData): string
  {
    TimeGreeting(d.timeOfDay) + ", " + d.name + "!" + ColorEmoji(d.favoriteColor)
  }

  /** The heading opens with "Hello, " exactly when the time of day is not one the table knows. */
  lemma HeadingOpening(d: GreetingData)
    ensures "Hello, " <= Heading(d) <==> d.timeOfDay !in Greetings
    ensures d.timeOfDay in Greetings ==> "Good " + d.timeOfDay + ", " <= Heading(d)
  {
    var h := Heading(d);
    if d.timeOfDay in Greetings {
      assert h[0] == 'G';
    } else {
      assert h[..7] == "Hello, ";
    }
  }

  /** The heading carries the name right after the greeting, and ends with the colour's emoji. */
  lemma HeadingParts(d: GreetingData)
    ensures var h := Heading(d); var g := |TimeGreeting(d.timeOfDay)|;
      h[g + 2..g + 2 + |d.name|] == d.name &&
      h[|h| - |ColorEmoji(d.favoriteColor)|..] == ColorEmoji(d.favoriteColor)
  {
  }

  /** Line 85. */
  function Vibe(d: GreetingData): string
  {
    d.mood + " & " + d.favoriteColor + " lover"
  }

  /** Line 91: a quoted sentence that names the time of day and the person. */
  function Closing(d: GreetingData): (r: string)
    ensures "\"Every moment is a " + "fresh beginning. " + "Make this " + d.timeOfDay + " count, " <= r
    ensures |r| >= |d.name| + 2 && r[|r| - |d.name| - 2..] == d.name + "!\""
  {
    "\"Every moment is a " + "fresh beginning. " + "Make this " + d.timeOfDay + " count, " + d.name + "!\""
  }
}

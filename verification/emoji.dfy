/**
 * The emoji shown for a mood (utils/emojiForMood.ts): an exhaustive switch
 * over the five moods, one literal per mood.
 */
module EmojiForMood {
  import opened Types

  // Five opaque, distinct faces: weary, confused, neutral, slightly smiling
  // and grinning. The neutral face's code point is chosen from the mood's
  // name; its literal in the source lost its last byte.
  const TerribleFace: string := "\U{1F62B}"
  const BadFace: string := "\U{1F615}"
  const NeutralFace: string := "\U{1F610}"
  const GoodFace: string := "\U{1F642}"
  const GreatFace: string := "\U{1F604}"

  /** The emoji for a mood; defined for every mood, so it never yields `undefined`. */
  function EmojiForMood(m: Mood): (r: string)
    ensures r in {TerribleFace, BadFace, NeutralFace, GoodFace, GreatFace}
    ensures MoodForEmoji(r) == Some(m)
  {
    match m
    case Terrible => TerribleFace
    case Bad => BadFace
    case Neutral => NeutralFace
    case Good => GoodFace
    case Great => GreatFace
  }

  /**
   * Reading a face back as a mood: the reference against which
   * `EmojiForMood` is checked. Any other string is no mood at all.
   */
  function MoodForEmoji(e: string): Option<Mood> {
    if e == TerribleFace then Some(Terrible)
    else if e == BadFace then Some(Bad)
    else if e == NeutralFace then Some(Neutral)
    else if e == GoodFace then Some(Good)
    else if e == GreatFace then Some(Great)
    else None
  }

  /** Different moods never share an emoji. */
  lemma EmojiInjective(a: Mood, b: Mood)
    ensures EmojiForMood(a) == EmojiForMood(b) ==> a == b
  {
  }

  /** The five literals are pairwise distinct, so all five moods are told apart. */
  lemma EmojiRangeHasFive()
    ensures |{EmojiForMood(Terrible), EmojiForMood(Bad), EmojiForMood(Neutral),
              EmojiForMood(Good), EmojiForMood(Great)}| == 5
  {
  }
}

/**
 * The fixed text the journal works from: the guided-prompt catalog, the two
 * penny-flip catalogs, the flower palette and the fixed messages.
 */
module Catalog {

  /** Guided mode cycles through these twelve prompts in order. */
  const JournalPrompts: seq<string> := [
    "How are you feeling today?",
    "What made you smile recently?",
    "Describe a moment of peace from your day.",
    "What are you grateful for right now?",
    "What challenge are you facing, and how might you approach it?",
    "Write about a person who means a lot to you.",
    "What would you like to let go of?",
    "Describe your ideal peaceful place.",
    "What small victory did you have today?",
    "What are you looking forward to?",
    "Write about a lesson you learned recently.",
    "How do you want to grow as a person?"
  ]

  /** Penny prompts drawn when the coin lands heads. */
  const HeadsPrompts: seq<string> := [
    "Write about something that brings you joy.",
    "Describe a happy memory from your childhood.",
    "What adventure would you like to go on?",
    "Write about someone you admire and why.",
    "What makes you feel most alive?",
    "Describe your perfect day.",
    "What are you excited about right now?"
  ]

  /** Penny prompts drawn when the coin lands tails. */
  const TailsPrompts: seq<string> := [
    "What fear would you like to overcome?",
    "Write about a time you felt proud of yourself.",
    "What change would you like to make in your life?",
    "Describe a challenge that made you stronger.",
    "What would you tell your younger self?",
    "Write about a difficult decision you made.",
    "What lesson have you learned from a mistake?"
  ]

  /** Cherry blossom, hibiscus, sunflower, tulip, rose: one flower per saved entry. */
  const Palette: seq<char> := ['\U{1F338}', '\U{1F33A}', '\U{1F33B}', '\U{1F337}', '\U{1F339}']

  /** At most this many flowers are drawn; the rest are counted in a suffix. */
  const MaxFlowers: nat := 20

  const ProgressPlaceholder: string := "Plant your first thought to grow a flower!"

  const WrongKeyMessage: string := "Hmm, that doesn't seem to be the right key to the garden..."

  /** Coin faces shown after a flip: a coin for heads, a crescent moon for tails. */
  const HeadsFace: char := '\U{1FA99}'
  const TailsFace: char := '\U{1F319}'

  const PennyIdleText: string := "Click \"Flip for Inspiration\" to get a writing prompt!"
}

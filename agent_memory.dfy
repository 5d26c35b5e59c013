/** The shared `AgentMemory` record and the partial-record merge behind
    `updateMemory` (App.tsx:36-47). A record is a map from the keys it holds to
    their values; a `Partial<AgentMemory>` update is a map holding only the keys
    it sets. */
module AgentMemory {

  /** The keys the components read and write (types.ts declares some of them;
      the components also use `senderName`, `vibe`, `charity` and `donationAmount`). */
  datatype Field =
    | RecipientName | SenderName | GeneratedCardUrl | GeneratedBackgroundUrl
    | CardMessage | GiftUrl | ConversationContext | Vibe | Charity | DonationAmount

  /** A stored value: a string, `null`, `undefined` (what a missing response
      text stores), or a number. */
  datatype Value = Str(s: string) | Null | Undefined | Num(n: int)

  type Memory = map<Field, Value>

  const InitialCardMessage: string :=
    "As we step into 2025, the landscape of career and AI is evolving rapidly. " +
    "Whether you are a new graduate or a veteran with 20+ years of experience navigating recent changes, " +
    "remember that resilience is key.\n\nPrioritize your work-life balance and never give up on your journey. " +
    "The right opportunity is waiting for you.\n\nWishing you a year of growth and balance!"

  /** The memory `App` starts with. */
  function Initial(): (m: Memory)
    ensures m.Keys == {RecipientName, SenderName, GeneratedCardUrl, CardMessage, GiftUrl, ConversationContext}
    ensures m[GeneratedCardUrl] == Null && m[GiftUrl] == Null && m[ConversationContext] == Str("")
  {
    map[RecipientName := Str("My Network"),
        SenderName := Str("Sheng-Liang Song"),
        GeneratedCardUrl := Null,
        CardMessage := Str(InitialCardMessage),
        GiftUrl := Null,
        ConversationContext := Str("")]
  }

  /** `{ ...prev, ...updates }`: every key the update holds takes the update's
      value, every other key keeps its value, and no other key appears. */
  function Merge(prev: Memory, updates: Memory): (r: Memory)
    ensures r.Keys == prev.Keys + updates.Keys
    ensures forall k :: k in updates ==> r[k] == updates[k]
    ensures forall k :: k in prev && k !in updates ==> r[k] == prev[k]
  {
    prev + updates
  }

  /** Merging an empty update leaves the memory unchanged. */
  lemma MergeEmpty(m: Memory)
    ensures Merge(m, map[]) == m
  {
  }

  /** Applying the same update twice is the same as applying it once. */
  lemma MergeIdempotent(m: Memory, u: Memory)
    ensures Merge(Merge(m, u), u) == Merge(m, u)
  {
    assert Merge(Merge(m, u), u).Keys == Merge(m, u).Keys;
  }

  /** Two successive updates act as one update in which the later one wins. */
  lemma MergeSequential(m: Memory, a: Memory, b: Memory)
    ensures Merge(Merge(m, a), b) == Merge(m, Merge(a, b))
  {
    assert Merge(Merge(m, a), b).Keys == Merge(m, Merge(a, b)).Keys;
  }

  /** `memory.field || fallback` for a string field: an absent, `null`,
      `undefined` or empty string value gives the fallback. */
  function StringOr(m: Memory, f: Field, fallback: string): string {
    if f in m && m[f].Str? && m[f].s != "" then m[f].s else fallback
  }

  /** `memory.field || 0` for a numeric field: an absent or non-numeric value
      gives 0 (and a zero gives zero). */
  function NumberOrZero(m: Memory, f: Field): int {
    if f in m && m[f].Num? then m[f].n else 0
  }
}

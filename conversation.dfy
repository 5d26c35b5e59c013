/** The turn accumulator the workshop and the live-assistant components run on
    the agent's transcript callback (features/CardWorkshop.tsx:115-127,
    features/SantaLive.tsx:35-51): deltas are appended to a pending user/elf
    pair and, when the turn completes, each non-blank side becomes one trimmed
    history entry, user first. */
module Conversation {
  import opened Text

  /** `'user' | 'elf'`. */
  datatype Role = User | Elf

  /** `{ role, text }`: one line of the conversation history. */
  datatype Entry = Entry(role: Role, text: string)

  /** `currentTurn`: the text received so far in the open turn. */
  datatype Turn = Turn(user: string, elf: string)

  const EmptyTurn: Turn := Turn("", "")

  /** The invariant of every history entry: non-empty, with no removable
      character at either end (so equal to its own trim). */
  predicate WellFormed(e: Entry) {
    e.text != [] && IsTrimmed(e.text)
  }

  predicate WellFormedHistory(h: seq<Entry>) {
    forall i :: 0 <= i < |h| ==> WellFormed(h[i])
  }

  /** `prev => ({ user: prev.user + input, elf: prev.elf + output })`. */
  function Extend(t: Turn, input: string, output: string): (r: Turn)
    ensures |r.user| == |t.user| + |input| && r.user[..|t.user|] == t.user && r.user[|t.user|..] == input
    ensures |r.elf| == |t.elf| + |output| && r.elf[..|t.elf|] == t.elf && r.elf[|t.elf|..] == output
  {
    Turn(t.user + input, t.elf + output)
  }

  /** What one side of a turn (or a typed message) contributes: its trimmed text
      as one entry with that role, or nothing when the text is blank. */
  function Entries(role: Role, text: string): (items: seq<Entry>)
    ensures WellFormedHistory(items)
    ensures |items| <= 1
    ensures |items| == 1 <==> !IsBlank(text)
    ensures forall e :: e in items ==> e == Entry(role, Trim(text))
  {
    BlankIffTrimEmpty(text);
    if IsBlank(text) then []
    else [Entry(role, Trim(text))]
  }

  /** The entries a completed turn contributes: the trimmed user text if it is not
      blank, then the trimmed elf text if it is not blank. */
  function Finalize(t: Turn): (items: seq<Entry>)
    ensures WellFormedHistory(items)
    ensures |items| == (if IsBlank(t.user) then 0 else 1) + (if IsBlank(t.elf) then 0 else 1)
    ensures !IsBlank(t.user) ==> items[0] == Entry(User, Trim(t.user))
    ensures !IsBlank(t.elf) ==> items[|items| - 1] == Entry(Elf, Trim(t.elf))
  {
    var users := Entries(User, t.user);
    var elves := Entries(Elf, t.elf);
    assert |users| == (if IsBlank(t.user) then 0 else 1);
    assert |elves| == (if IsBlank(t.elf) then 0 else 1);
    AppendWellFormed(users, elves);
    users + elves
  }

  /** Appending well-formed entries keeps a history well formed. */
  lemma AppendWellFormed(h: seq<Entry>, items: seq<Entry>)
    requires WellFormedHistory(h) && WellFormedHistory(items)
    ensures WellFormedHistory(h + items)
  {
    forall i | 0 <= i < |h + items| ensures WellFormed((h + items)[i]) {
      if i >= |h| { assert (h + items)[i] == items[i - |h|]; }
    }
  }

  /** A non-empty trimmed text contributes exactly itself. */
  lemma EntriesOfTrimmed(role: Role, text: string)
    requires text != [] && IsTrimmed(text)
    ensures Entries(role, text) == [Entry(role, text)]
  {
    assert !IsSpace(text[0]);
    TrimmedIsFixpoint(text);
  }

  /** A completed turn whose two sides are already non-empty and trimmed
      contributes exactly those two texts, user first. */
  lemma FinalizeTrimmed(u: string, e: string)
    requires u != [] && IsTrimmed(u) && e != [] && IsTrimmed(e)
    ensures Finalize(Turn(u, e)) == [Entry(User, u), Entry(Elf, e)]
  {
    EntriesOfTrimmed(User, u);
    EntriesOfTrimmed(Elf, e);
  }

  /** Worked example: after "Hello" from the user and "Hi " then "there" from the
      elf, completing the turn yields the user entry and then the elf entry. */
  lemma FinalizeExample()
    ensures Finalize(Extend(Extend(Extend(EmptyTurn, "", "Hi "), "", "there"), "Hello", ""))
            == [Entry(User, "Hello"), Entry(Elf, "Hi there")]
  {
    var t := Extend(Extend(Extend(EmptyTurn, "", "Hi "), "", "there"), "Hello", "");
    assert t == Turn("Hello", "Hi there");
    FinalizeTrimmed("Hello", "Hi there");
  }

  /** Completing a turn in which nothing was said adds no entry. */
  lemma FinalizeEmptyTurn()
    ensures Finalize(EmptyTurn) == []
  {
    assert TrimStart("") == "";
  }

  /** `role` as the history line prints it. */
  function RoleName(r: Role): string {
    match r
    case User => "user"
    case Elf => "elf"
  }

  /** `${h.role}: ${h.text}`. */
  function Line(e: Entry): string {
    RoleName(e.role) + ": " + e.text
  }

  /** `history.map(h => `${h.role}: ${h.text}`)`. */
  function Lines(h: seq<Entry>): (r: seq<string>)
    ensures |r| == |h|
    ensures forall i :: 0 <= i < |h| ==> r[i] == Line(h[i])
  {
    if h == [] then [] else [Line(h[0])] + Lines(h[1..])
  }
}

/** The text the live-assist module accumulates: every "final" socket event
    and every SDK message becomes one labelled line "LABEL: text" of a single
    transcript string, and lines are separated by a newline. AppendLine is the
    update the source performs on each event (src/lib/utils/live-assist.ts);
    Render is an independent definition of the whole transcript from the list
    of lines received, and RenderAppend ties the two together. */
module Transcript {

  /** The two connection roles of src/lib/utils/live-assist.ts. */
  datatype Role = Agent | Customer

  /** The speaker label written in front of a line. Its first letter already
      tells the roles apart. */
  function Label(role: Role): (r: string)
    ensures |r| > 0 && (r[0] == 'A' <==> role == Agent)
  {
    match role
    case Agent => "AGENT"
    case Customer => "CUSTOMER"
  }

  /** `sendMessage` attributes a message from source "user" to the agent and
      every other source to the customer: the line is labelled "AGENT"
      exactly when the source is "user", and "CUSTOMER" otherwise. */
  function SpeakerOfSource(source: string): (r: Role)
    ensures Label(r) == "AGENT" <==> source == "user"
    ensures Label(r) == "CUSTOMER" <==> source != "user"
  {
    if source == "user" then Agent else Customer
  }

  /** One transcript line as received: who spoke and what was said. */
  datatype Entry = Entry(speaker: Role, text: string)

  function Line(e: Entry): (r: string)
    ensures Label(e.speaker) + ": " <= r
  {
    Label(e.speaker) + ": " + e.text
  }

  /** The update applied to the transcript store for one line: a newline only
      when the transcript so far is non-empty, then "LABEL: text". The old
      transcript is always kept as a prefix. */
  function AppendLine(prev: string, speaker: Role, text: string): (r: string)
    ensures prev <= r && |r| > |prev|
  {
    prev + (if |prev| > 0 then "\n" else "") + Label(speaker) + ": " + text
  }

  /** The transcript that a list of lines should produce: the lines joined by
      single newlines. It is empty exactly when no line was received. */
  function Render(entries: seq<Entry>): (r: string)
    ensures |r| == 0 <==> entries == []
  {
    if entries == [] then ""
    else if |entries| == 1 then Line(entries[0])
    else Line(entries[0]) + "\n" + Render(entries[1..])
  }

  /** A line can be read back: who spoke and what was said are determined by
      the line's text. */
  lemma LineInjective(a: Entry, b: Entry)
    requires Line(a) == Line(b)
    ensures a == b
  {
    assert Line(a)[0] == Label(a.speaker)[0];
    assert Line(b)[0] == Label(b.speaker)[0];
    var prefix := Label(a.speaker) + ": ";
    assert Line(a)[|prefix|..] == a.text;
    assert Line(b)[|prefix|..] == b.text;
  }

  /** Appending one line with AppendLine renders the extended list: the
      step-by-step update of the source and the whole-transcript definition
      agree. */
  lemma {:induction false} RenderAppend(entries: seq<Entry>, e: Entry)
    ensures Render(entries + [e]) == AppendLine(Render(entries), e.speaker, e.text)
    decreases |entries|
  {
    if entries == [] {
      assert entries + [e] == [e];
    } else if |entries| == 1 {
      assert entries + [e] == [entries[0], e];
      assert (entries + [e])[1..] == [e];
    } else {
      var rest := entries[1..];
      assert (entries + [e])[1..] == rest + [e];
      RenderAppend(rest, e);
    }
  }

  /** The transcript after a line is received ends with "LABEL: text" of
      that line. */
  lemma LastLine(entries: seq<Entry>, e: Entry)
    ensures |Line(e)| <= |Render(entries + [e])|
    ensures Render(entries + [e])[|Render(entries + [e])| - |Line(e)|..] == Line(e)
  {
    RenderAppend(entries, e);
  }

  /** The transcript only grows: the rendering of a list of lines is a prefix
      of the rendering of any extension of that list. */
  lemma {:induction false} RenderMonotone(entries: seq<Entry>, more: seq<Entry>)
    ensures Render(entries) <= Render(entries + more)
    decreases |more|
  {
    if more == [] {
      assert entries + more == entries;
    } else {
      var init := more[..|more| - 1];
      var last := more[|more| - 1];
      assert entries + more == (entries + init) + [last];
      RenderMonotone(entries, init);
      RenderAppend(entries + init, last);
    }
  }
}

/** The run log: in-memory entry lists and the text written by `save`
    (utils/logger.py). Clock readings are parameters. */
module Logger {
  import opened Common

  /** One log line: "[timestamp] [level] message". */
  function Entry(timestamp: string, level: string, message: string): string {
    "[" + timestamp + "] [" + level + "] " + message
  }

  /** The text of an unsupported-feature notice: the feature, and " - details"
      only when there are details. */
  function UnsupportedMessage(feature: string, details: string): (m: string)
    ensures StartsWith(m, "Unsupported: " + feature)
    ensures |m| == |"Unsupported: " + feature| <==> details == ""
    ensures details != "" ==> m[|"Unsupported: " + feature|..] == " - " + details
  {
    var m := "Unsupported: " + feature;
    if details != "" then m + " - " + details else m
  }

  const Bullet: string := "  \U{2022} "

  function Rule(c: char): string {
    seq(80, _ => c)
  }

  /** The "UNSUPPORTED FEATURES" list: one bulleted line per feature, in order. */
  function Bulleted(features: seq<string>): string
    decreases |features|
  {
    if features == [] then ""
    else Bulleted(features[..|features| - 1]) + Bullet + features[|features| - 1] + "\n"
  }

  /** Every entry followed by a newline, in order. */
  function Lines(entries: seq<string>): string
    decreases |entries|
  {
    if entries == [] then ""
    else Lines(entries[..|entries| - 1]) + entries[|entries| - 1] + "\n"
  }

  function Header(generated: string): string {
    Rule('=') + "\n" + "Discord to Fluxer Migration Log\n" + "Generated: " + generated + "\n" + Rule('=') + "\n\n"
  }

  /** The section listing unsupported features; empty when there are none. */
  function UnsupportedSection(features: seq<string>): (s: string)
    ensures s == "" <==> features == []
  {
    if features == [] then ""
    else "UNSUPPORTED FEATURES\n" + Rule('-') + "\n" + Bulleted(features) + "\n"
  }

  /** The whole file written by `save`. */
  function SaveText(generated: string, features: seq<string>, entries: seq<string>): string {
    Header(generated) + UnsupportedSection(features) + "MIGRATION LOG\n" + Rule('-') + "\n" + Lines(entries)
  }

  lemma {:induction false} LinesAppend(a: seq<string>, b: seq<string>)
    ensures Lines(a + b) == Lines(a) + Lines(b)
    decreases |b|
  {
    if b == [] {
      assert a + b == a;
    } else {
      var c := a + b;
      assert c[..|c| - 1] == a + b[..|b| - 1];
      LinesAppend(a, b[..|b| - 1]);
    }
  }

  /** The log section comes last, so saving after more entries were logged only
      extends the saved text: earlier entries keep their place and content. */
  lemma SaveTextExtends(generated: string, features: seq<string>, entries: seq<string>, more: seq<string>)
    ensures SaveText(generated, features, entries + more) == SaveText(generated, features, entries) + Lines(more)
  {
    LinesAppend(entries, more);
  }

  /** The newlines inside the entries themselves. */
  function EmbeddedNewlines(entries: seq<string>): nat
    decreases |entries|
  {
    if entries == [] then 0
    else EmbeddedNewlines(entries[..|entries| - 1]) + multiset(entries[|entries| - 1])['\n']
  }

  /** The log section ends every entry with a newline, so it holds one
      newline per entry plus those the entries carry themselves (a header
      logged with a leading newline adds one). */
  lemma {:induction false} LinesNewlines(entries: seq<string>)
    ensures multiset(Lines(entries))['\n'] == |entries| + EmbeddedNewlines(entries)
    decreases |entries|
  {
    if entries != [] {
      var last := entries[|entries| - 1];
      LinesNewlines(entries[..|entries| - 1]);
      assert Lines(entries) == Lines(entries[..|entries| - 1]) + last + "\n";
      assert multiset(Lines(entries)) == multiset(Lines(entries[..|entries| - 1])) + multiset(last) + multiset("\n");
    }
  }

  /** Each entry occupies its own line: the line count of the log section is
      the number of entries when no entry contains a newline. */
  lemma {:induction false} LinesCount(entries: seq<string>)
    requires forall i :: 0 <= i < |entries| ==> '\n' !in entries[i]
    ensures multiset(Lines(entries))['\n'] == |entries|
    decreases |entries|
  {
    if entries != [] {
      var last := entries[|entries| - 1];
      LinesCount(entries[..|entries| - 1]);
      assert multiset(last)['\n'] == 0;
      assert Lines(entries) == Lines(entries[..|entries| - 1]) + last + "\n";
      assert multiset(Lines(entries)) == multiset(Lines(entries[..|entries| - 1])) + multiset(last) + multiset("\n");
    }
  }

  class MigrationLogger {
    /** Where `save` writes: logs/<filename>. */
    const path: string
    var unsupportedFeatures: seq<string>
    var logEntries: seq<string>

    /** Without a file name, the name is "migration_<start time>.txt". */
    constructor (filename: Option<string>, startTime: string)
      ensures path == "logs/" + filename.GetOr("migration_" + startTime + ".txt")
      ensures unsupportedFeatures == [] && logEntries == []
    {
      path := "logs/" + filename.GetOr("migration_" + startTime + ".txt");
      unsupportedFeatures := [];
      logEntries := [];
    }

    /** Append one entry; the unsupported list is untouched. */
    method Log(message: string, timestamp: string, level: string := "INFO")
      modifies this
      ensures logEntries == old(logEntries) + [Entry(timestamp, level, message)]
      ensures unsupportedFeatures == old(unsupportedFeatures)
    {
      logEntries := logEntries + [Entry(timestamp, level, message)];
    }

    /** Record the notice once in the unsupported list and once as a WARN entry. */
    method LogUnsupported(feature: string, timestamp: string, details: string := "")
      modifies this
      ensures unsupportedFeatures == old(unsupportedFeatures) + [UnsupportedMessage(feature, details)]
      ensures logEntries == old(logEntries) + [Entry(timestamp, "WARN", UnsupportedMessage(feature, details))]
    {
      var message := UnsupportedMessage(feature, details);
      unsupportedFeatures := unsupportedFeatures + [message];
      Log(message, timestamp, "WARN");
    }

    /** The text `save` writes to `path`, built line by line. */
    method Save(generated: string) returns (text: string)
      ensures text == SaveText(generated, unsupportedFeatures, logEntries)
    {
      var features := FeatureSection();
      var entries := EntryLines();
      text := Header(generated) + features + "MIGRATION LOG\n" + Rule('-') + "\n" + entries;
    }

    /** The unsupported-features part of `save`, one bulleted line per feature. */
    method FeatureSection() returns (text: string)
      ensures text == UnsupportedSection(unsupportedFeatures)
    {
      if unsupportedFeatures == [] {
        return "";
      }
      var lines := "";
      var i := 0;
      while i < |unsupportedFeatures|
        invariant 0 <= i <= |unsupportedFeatures|
        invariant lines == Bulleted(unsupportedFeatures[..i])
      {
        assert unsupportedFeatures[..i + 1][..i] == unsupportedFeatures[..i];
        lines := lines + Bullet + unsupportedFeatures[i] + "\n";
        i := i + 1;
      }
      assert unsupportedFeatures[..i] == unsupportedFeatures;
      text := "UNSUPPORTED FEATURES\n" + Rule('-') + "\n" + lines + "\n";
    }

    /** The log part of `save`: every entry followed by a newline, in order. */
    method EntryLines() returns (text: string)
      ensures text == Lines(logEntries)
    {
      text := "";
      var j := 0;
      while j < |logEntries|
        invariant 0 <= j <= |logEntries|
        invariant text == Lines(logEntries[..j])
      {
        assert logEntries[..j + 1][..j] == logEntries[..j];
        text := text + logEntries[j] + "\n";
        j := j + 1;
      }
      assert logEntries[..j] == logEntries;
    }
  }
}

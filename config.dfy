/** Token normalisation and the optional config file (utils/config.py). */
module Config {
  import opened Common

  const BearerPrefix: string := "bearer "

  /** `clean_token`: strip whitespace, drop one case-insensitive "Bearer " prefix
      (and the whitespace after it), then strip double and then single quotes. */
  function CleanToken(token: string): (r: string)
    ensures |r| <= |token|
    ensures r != [] ==> r[0] != '\'' && r[|r| - 1] != '\''
  {
    StripQuotes(DropBearer(Strip(token, Whitespace)))
  }

  /** Remove one case-insensitive "bearer " prefix and the whitespace after it. */
  function DropBearer(t: string): (r: string)
    ensures |r| <= |t|
  {
    if StartsWith(Lower(t), BearerPrefix) then Strip(t[|BearerPrefix|..], Whitespace) else t
  }

  /** `t.strip('"').strip("'")`. */
  function StripQuotes(t: string): (r: string)
    ensures |r| <= |t|
    ensures r != [] ==> r[0] != '\'' && r[|r| - 1] != '\''
  {
    Strip(Strip(t, {'"'}), {'\''})
  }

  /** A token without surrounding whitespace or quotes and without the prefix
      comes back unchanged. */
  lemma CleanTokenKeepsCleanToken(token: string)
    requires token != [] ==> token[0] !in Whitespace + {'"', '\''} && token[|token| - 1] !in Whitespace + {'"', '\''}
    requires !StartsWith(Lower(token), BearerPrefix)
    ensures CleanToken(token) == token
  {
    if token != [] {
      StripKeeps(token, Whitespace);
      assert DropBearer(token) == token;
      StripQuotesKeeps(token);
    }
  }

  /** Only one prefix is removed: "Bearer " (in any case) followed by a clean
      token gives that token, even when it starts with "Bearer " itself. */
  lemma CleanTokenRemovesOnePrefix(prefix: string, rest: string)
    requires |prefix| == |BearerPrefix| && Lower(prefix) == BearerPrefix
    requires rest != [] && rest[0] !in Whitespace + {'"', '\''} && rest[|rest| - 1] !in Whitespace + {'"', '\''}
    ensures CleanToken(prefix + rest) == rest
  {
    PrefixedTokenUnfolds(prefix, rest);
    PrefixedTokenStages(prefix, rest);
  }

  /** Whitespace around a token, as pasted from a terminal or a file, does
      not change what it cleans to. */
  lemma CleanTokenIgnoresWhitespace(front: string, token: string, back: string)
    requires forall i :: 0 <= i < |front| ==> front[i] in Whitespace
    requires forall i :: 0 <= i < |back| ==> back[i] in Whitespace
    ensures CleanToken(front + token + back) == CleanToken(token)
  {
    StripPadded(front, token, back, Whitespace);
  }

  /** The whitespace after the "Bearer" word goes with the prefix: "Bearer",
      a space, any further whitespace and a clean token give that token. */
  lemma CleanTokenRemovesPrefixAndGap(prefix: string, gap: string, rest: string)
    requires |prefix| == |BearerPrefix| && Lower(prefix) == BearerPrefix
    requires forall i :: 0 <= i < |gap| ==> gap[i] in Whitespace
    requires rest != [] && rest[0] !in Whitespace + {'"', '\''} && rest[|rest| - 1] !in Whitespace + {'"', '\''}
    ensures CleanToken(prefix + gap + rest) == rest
  {
    assert prefix + gap + rest == prefix + (gap + rest);
    PrefixedTokenUnfolds(prefix, gap + rest);
    DropBearerOfGap(prefix, gap, rest);
    StripQuotesKeeps(rest);
  }

  lemma DropBearerOfGap(prefix: string, gap: string, rest: string)
    requires |prefix| == |BearerPrefix| && Lower(prefix) == BearerPrefix
    requires forall i :: 0 <= i < |gap| ==> gap[i] in Whitespace
    requires rest != [] && rest[0] !in Whitespace && rest[|rest| - 1] !in Whitespace
    ensures DropBearer(prefix + (gap + rest)) == rest
  {
    BearerPrefixOf(prefix, gap + rest);
    assert (prefix + (gap + rest))[|BearerPrefix|..] == gap + rest;
    GapStrips(gap, rest);
  }

  lemma GapStrips(gap: string, rest: string)
    requires forall i :: 0 <= i < |gap| ==> gap[i] in Whitespace
    requires rest != [] && rest[0] !in Whitespace && rest[|rest| - 1] !in Whitespace
    ensures Strip(gap + rest, Whitespace) == rest
  {
    StripFront(gap, rest, Whitespace);
    StripKeeps(rest, Whitespace);
  }

  lemma PrefixedTokenUnfolds(prefix: string, rest: string)
    requires |prefix| == |BearerPrefix| && Lower(prefix) == BearerPrefix
    requires rest != [] && rest[|rest| - 1] !in Whitespace
    ensures CleanToken(prefix + rest) == StripQuotes(DropBearer(prefix + rest))
  {
    TokenAlreadyStripped(prefix, rest);
    CleanTokenOfStripped(prefix + rest);
  }

  lemma PrefixedTokenStages(prefix: string, rest: string)
    requires |prefix| == |BearerPrefix| && Lower(prefix) == BearerPrefix
    requires rest != [] && rest[0] !in Whitespace + {'"', '\''} && rest[|rest| - 1] !in Whitespace + {'"', '\''}
    ensures StripQuotes(DropBearer(prefix + rest)) == rest
  {
    DropBearerOf(prefix, rest);
    StripQuotesKeeps(rest);
  }

  lemma CleanTokenOfStripped(token: string)
    requires Strip(token, Whitespace) == token
    ensures CleanToken(token) == StripQuotes(DropBearer(token))
  {
  }

  lemma DropBearerOf(prefix: string, rest: string)
    requires |prefix| == |BearerPrefix| && Lower(prefix) == BearerPrefix
    requires rest != [] && rest[0] !in Whitespace && rest[|rest| - 1] !in Whitespace
    ensures DropBearer(prefix + rest) == rest
  {
    BearerPrefixOf(prefix, rest);
    assert (prefix + rest)[|BearerPrefix|..] == rest;
    StripKeeps(rest, Whitespace);
  }

  lemma StripQuotesKeeps(t: string)
    requires t != [] && t[0] !in {'"', '\''} && t[|t| - 1] !in {'"', '\''}
    ensures StripQuotes(t) == t
  {
    StripKeeps(t, {'"'});
    StripKeeps(t, {'\''});
  }

  lemma TokenAlreadyStripped(prefix: string, rest: string)
    requires |prefix| == |BearerPrefix| && Lower(prefix) == BearerPrefix
    requires rest != [] && rest[|rest| - 1] !in Whitespace
    ensures Strip(prefix + rest, Whitespace) == prefix + rest
  {
    var token := prefix + rest;
    assert token[0] !in Whitespace by {
      assert LowerChar(token[0]) == Lower(prefix)[0];
    }
    assert token[|token| - 1] == rest[|rest| - 1];
    StripKeeps(token, Whitespace);
  }

  lemma BearerPrefixOf(prefix: string, rest: string)
    requires |prefix| == |BearerPrefix| && Lower(prefix) == BearerPrefix
    ensures StartsWith(Lower(prefix + rest), BearerPrefix)
  {
    var low := Lower(prefix + rest);
    forall i | 0 <= i < |BearerPrefix| ensures low[i] == BearerPrefix[i] {
      assert low[i] == LowerChar((prefix + rest)[i]) == LowerChar(prefix[i]) == Lower(prefix)[i];
    }
    assert low[..|BearerPrefix|] == BearerPrefix;
  }

  /** What reading config/config.json produced: no file, a file that could not
      be read or parsed, or the parsed string entries. */
  datatype ConfigFile = Absent | Unreadable | Parsed(entries: map<string, string>)

  const TokenKeys: set<string> := {"discord_token", "fluxer_token"}

  /** `load_config`: exactly the two token keys, each "" unless the parsed file has it. */
  function LoadConfig(file: ConfigFile): (cfg: map<string, string>)
    ensures cfg.Keys == TokenKeys
    ensures forall k :: k in cfg ==> cfg[k] == (if file.Parsed? && k in file.entries then file.entries[k] else "")
  {
    map k | k in TokenKeys :: if file.Parsed? && k in file.entries then file.entries[k] else ""
  }
}

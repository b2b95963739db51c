/**
 * Start-up configuration of the HTTP server (src/server.js): which env file
 * is loaded, whether CORS is restricted, the origin whitelist built from the
 * `allowedOrigins` setting, and the origin callback handed to the CORS
 * middleware.
 */
module Server {
  import opened Wrappers
  import opened Text

  // ---------------------------------------------------------------------
  // Env file
  // ---------------------------------------------------------------------

  datatype EnvFile = Production | Development

  /** NODE_ENV is compared after trimming and lower-casing. */
  function EnvFileFor(nodeEnv: string): EnvFile
  {
    if Lower(Trim(nodeEnv)) == "production" then Production else Development
  }

  /** White space around NODE_ENV does not change which env file is loaded. */
  lemma {:induction false} EnvFileIgnoresPadding(pre: string, nodeEnv: string, post: string)
    requires AllSpace(pre) && AllSpace(post)
    ensures EnvFileFor(pre + nodeEnv + post) == EnvFileFor(nodeEnv)
  {
    TrimPadding(pre, nodeEnv, post);
  }

  lemma {:induction false} TrimStartPadding(pre: string, s: string)
    requires AllSpace(pre)
    ensures TrimStart(pre + s) == TrimStart(s)
    decreases |pre|
  {
    if |pre| > 0 {
      assert (pre + s)[1..] == pre[1..] + s;
      TrimStartPadding(pre[1..], s);
    } else {
      assert pre + s == s;
    }
  }

  lemma {:induction false} TrimEndPadding(s: string, post: string)
    requires AllSpace(post)
    ensures TrimEnd(s + post) == TrimEnd(s)
    decreases |post|
  {
    if |post| > 0 {
      var shorter := post[..|post| - 1];
      assert (s + post)[..|s + post| - 1] == s + shorter;
      TrimEndPadding(s, shorter);
    } else {
      assert s + post == s;
    }
  }

  /** Leading white space is dropped the same way whatever follows the string. */
  lemma {:induction false} TrimStartAppend(s: string, post: string)
    ensures TrimStart(s + post) == if TrimStart(s) == [] then TrimStart(post) else TrimStart(s) + post
    decreases |s|
  {
    if |s| == 0 {
      assert s + post == post;
    } else if IsSpace(s[0]) {
      assert (s + post)[1..] == s[1..] + post;
      TrimStartAppend(s[1..], post);
    }
  }

  lemma {:induction false} AllSpaceTrimStart(s: string)
    requires AllSpace(s)
    ensures TrimStart(s) == []
    decreases |s|
  {
    if |s| > 0 {
      AllSpaceTrimStart(s[1..]);
    }
  }

  lemma TrimPadding(pre: string, s: string, post: string)
    requires AllSpace(pre) && AllSpace(post)
    ensures Trim(pre + s + post) == Trim(s)
  {
    assert pre + s + post == pre + (s + post);
    TrimStartPadding(pre, s + post);
    TrimStartAppend(s, post);
    var t := TrimStart(s);
    if t == [] {
      AllSpaceTrimStart(post);
    } else {
      TrimEndPadding(t, post);
    }
  }

  // ---------------------------------------------------------------------
  // CORS whitelist
  // ---------------------------------------------------------------------

  /** `corsEnabled.toLowerCase() === 'true'`. */
  function CorsEnabled(flag: string): bool
  {
    Lower(flag) == "true"
  }

  /**
   * The whitelist of allowed origins. With a comma, the trimmed comma-separated
   * pieces in order, empty ones kept; without one, the setting itself, untrimmed.
   */
  function WhitelistOf(allowed: string): (r: seq<string>)
    ensures ',' !in allowed ==> r == [allowed]
    ensures ',' in allowed ==>
      exists pieces: seq<string> ::
        && |pieces| == |r| >= 2
        && Join(pieces, ',') == allowed
        && (forall i :: 0 <= i < |pieces| ==> ',' !in pieces[i] && r[i] == Trim(pieces[i]))
  {
    if ',' in allowed then
      var pieces := Split(allowed, ',');
      JoinSplit(allowed, ',');
      SplitPiecesAvoidSeparator(allowed, ',');
      SplitAtSeparator(allowed, ',');
      TrimAll(pieces)
    else
      [allowed]
  }

  /** The whitelist is built piece by piece, as the source's `forEach` pushes them. */
  method BuildWhitelist(allowed: string) returns (whitelist: seq<string>)
    ensures whitelist == WhitelistOf(allowed)
  {
    whitelist := [];
    if ',' in allowed {
      var pieces := Split(allowed, ',');
      var i := 0;
      while i < |pieces|
        invariant 0 <= i <= |pieces|
        invariant whitelist == TrimAll(pieces[..i])
      {
        TrimAllNext(pieces, i);
        whitelist := whitelist + [Trim(pieces[i])];
        i := i + 1;
      }
      assert pieces[..i] == pieces;
    } else {
      whitelist := whitelist + [allowed];
    }
  }

  lemma TrimAllNext(pieces: seq<string>, i: nat)
    requires i < |pieces|
    ensures TrimAll(pieces[..i + 1]) == TrimAll(pieces[..i]) + [Trim(pieces[i])]
  {
    assert pieces[..i + 1][..i] == pieces[..i];
  }

  // ---------------------------------------------------------------------
  // Origin check
  // ---------------------------------------------------------------------

  /** `origin && origin.startsWith(w)`: a missing or empty origin matches nothing. */
  predicate OriginMatches(origin: Option<string>, w: string)
  {
    origin.Some? && origin.value != "" && StartsWith(origin.value, w)
  }

  /** `whitelist.findIndex(...)`: the first entry the origin starts with, or -1. */
  function FindIndex(whitelist: seq<string>, origin: Option<string>): (r: int)
    ensures -1 <= r < |whitelist|
    ensures r >= 0 ==> OriginMatches(origin, whitelist[r])
    ensures forall j :: 0 <= j < |whitelist| && (r == -1 || j < r) ==> !OriginMatches(origin, whitelist[j])
  {
    if |whitelist| == 0 then -1
    else if OriginMatches(origin, whitelist[0]) then 0
    else
      var k := FindIndex(whitelist[1..], origin);
      if k == -1 then -1 else k + 1
  }

  datatype CorsVerdict = Allowed | Rejected(message: string)

  /** The callback passed as `corsOptions.origin`. */
  function OriginCallback(whitelist: seq<string>, origin: Option<string>): CorsVerdict
  {
    if FindIndex(whitelist, origin) > -1 then Allowed else Rejected("CORS failed")
  }

  /** An origin is accepted exactly when it is non-empty and starts with some whitelist entry. */
  lemma OriginAcceptedIff(whitelist: seq<string>, origin: Option<string>)
    ensures OriginCallback(whitelist, origin) == Allowed <==>
      origin.Some? && origin.value != "" &&
      exists i :: 0 <= i < |whitelist| && StartsWith(origin.value, whitelist[i])
    ensures OriginCallback(whitelist, origin) != Allowed ==>
      OriginCallback(whitelist, origin) == Rejected("CORS failed")
  {
    if origin.Some? && origin.value != "" &&
       exists i :: 0 <= i < |whitelist| && StartsWith(origin.value, whitelist[i]) {
      var i :| 0 <= i < |whitelist| && StartsWith(origin.value, whitelist[i]);
      assert OriginMatches(origin, whitelist[i]);
    }
  }

  /** The match is by prefix, so an empty whitelist entry admits every non-empty origin. */
  lemma EmptyEntryAdmitsAll(whitelist: seq<string>, origin: string)
    requires "" in whitelist
    requires origin != ""
    ensures OriginCallback(whitelist, Some(origin)) == Allowed
  {
    var i :| 0 <= i < |whitelist| && whitelist[i] == "";
    assert StartsWith(origin, whitelist[i]);
    OriginAcceptedIff(whitelist, Some(origin));
  }

  /** A request without an origin, or with an empty one, is always refused. */
  lemma MissingOriginRejected(whitelist: seq<string>, origin: Option<string>)
    requires origin == None || origin == Some("")
    ensures OriginCallback(whitelist, origin) == Rejected("CORS failed")
  {
  }

  /** `corsOptions`: `{}` (no origin callback) unless CORS is enabled. */
  datatype CorsOptions = NoOptions | OriginCheck(whitelist: seq<string>)

  method SetupCors(corsEnabled: string, allowedOrigins: string) returns (options: CorsOptions)
    ensures options.NoOptions? <==> !CorsEnabled(corsEnabled)
    ensures options.OriginCheck? ==> options.whitelist == WhitelistOf(allowedOrigins)
  {
    options := NoOptions;
    if CorsEnabled(corsEnabled) {
      var whitelist := BuildWhitelist(allowedOrigins);
      options := OriginCheck(whitelist);
    }
  }
}

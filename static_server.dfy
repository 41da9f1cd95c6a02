/**
 * The development file server (server.py): its request handler overrides
 * `end_headers` to add one Content-Type chosen by the path's suffix, then
 * three cache-busting headers, before the base class closes the header
 * block. Suffix matching is Python's `str.endswith` on the raw request path,
 * so it is case-sensitive and the first matching branch wins.
 */
module StaticServer {
  import opened Wrappers

  /** One line of the response header block: `Name: value`, or the blank line that ends it. */
  datatype HeaderLine = Header(name: string, value: string) | Blank

  const HtmlType: string := "text/html; charset=utf-8"
  const CssType: string := "text/css; charset=utf-8"
  const ScriptType: string := "application/javascript; charset=utf-8"
  const JsonType: string := "application/json; charset=utf-8"
  const PngType: string := "image/png"
  const JpegType: string := "image/jpeg"
  const GifType: string := "image/gif"
  const SvgType: string := "image/svg+xml"

  /** `s.endswith(suffix)`, compared from the last character backwards. */
  predicate EndsWith(s: string, suffix: string)
    decreases |suffix|
  {
    suffix == []
    || (|s| > 0 && s[|s| - 1] == suffix[|suffix| - 1] && EndsWith(s[..|s| - 1], suffix[..|suffix| - 1]))
  }

  /** `EndsWith` is Python's `s[len(s) - len(suffix):] == suffix`. */
  lemma {:induction false} EndsWithIsSliceEquality(s: string, suffix: string)
    ensures EndsWith(s, suffix) <==> |suffix| <= |s| && s[|s| - |suffix|..] == suffix
    decreases |suffix|
  {
    if suffix != [] && |s| > 0 {
      var s', suffix' := s[..|s| - 1], suffix[..|suffix| - 1];
      EndsWithIsSliceEquality(s', suffix');
      if |suffix| <= |s| {
        assert s[|s| - |suffix|..] == s'[|s'| - |suffix'|..] + [s[|s| - 1]];
        assert suffix == suffix' + [suffix[|suffix| - 1]];
      }
    }
  }

  /**
   * The suffix tests of the if/elif chain, in order, with the type each adds
   * (the `.jpg or .jpeg` branch is two entries).
   */
  const SuffixTable: seq<(string, string)> := [
    (".html", HtmlType),
    (".css", CssType),
    (".js", ScriptType),
    (".json", JsonType),
    (".png", PngType),
    (".jpg", JpegType),
    (".jpeg", JpegType),
    (".gif", GifType),
    (".svg", SvgType)]

  /** The type of the first entry whose suffix the path ends with. */
  function FirstMatch(table: seq<(string, string)>, path: string): Option<string>
  {
    if table == [] then None
    else if EndsWith(path, table[0].0) then Some(table[0].1)
    else FirstMatch(table[1..], path)
  }

  /** The Content-Type `end_headers` adds for a path, if any. */
  function MimeType(path: string): Option<string>
  {
    FirstMatch(SuffixTable, path)
  }

  const CacheHeaders: seq<HeaderLine> := [
    Header("Cache-Control", "no-cache, no-store, must-revalidate"),
    Header("Pragma", "no-cache"),
    Header("Expires", "0")]

  /** The Content-Type line for a chosen type, if there is one. */
  function ContentType(mime: Option<string>): seq<HeaderLine>
  {
    if mime.Some? then [Header("Content-Type", mime.value)] else []
  }

  /** Everything `end_headers` adds before it delegates to the base class. */
  function AddedHeaders(path: string): seq<HeaderLine>
  {
    ContentType(MimeType(path)) + CacheHeaders
  }

  /**
   * The handler's header state: `buffer` is the base class's header buffer,
   * `written` what has been flushed to the client.
   */
  class RequestHandler {
    const path: string
    var buffer: seq<HeaderLine>
    var written: seq<HeaderLine>

    constructor (path: string)
      ensures this.path == path && buffer == [] && written == []
    {
      this.path := path;
      buffer := [];
      written := [];
    }

    /** `send_header(name, value)`: buffered until the header block is closed. */
    method SendHeader(name: string, value: string)
      modifies this`buffer
      ensures buffer == old(buffer) + [Header(name, value)]
    {
      buffer := buffer + [Header(name, value)];
    }

    /** The base class's `end_headers`: add the blank line and flush the buffer. */
    method CloseHeaderBlock()
      modifies this`buffer, this`written
      ensures written == old(written) + old(buffer) + [Blank]
      ensures buffer == []
    {
      written := written + buffer + [Blank];
      buffer := [];
    }

    /** The if/elif chain of `end_headers`: at most one Content-Type, chosen by suffix. */
    method SendContentType()
      modifies this`buffer
      ensures buffer == old(buffer) + ContentType(Chain(path))
    {
      if EndsWith(path, ".html") {
        SendHeader("Content-Type", HtmlType);
      } else if EndsWith(path, ".css") {
        SendHeader("Content-Type", CssType);
      } else if EndsWith(path, ".js") {
        SendHeader("Content-Type", ScriptType);
      } else if EndsWith(path, ".json") {
        SendHeader("Content-Type", JsonType);
      } else if EndsWith(path, ".png") {
        SendHeader("Content-Type", PngType);
      } else if EndsWith(path, ".jpg") || EndsWith(path, ".jpeg") {
        SendHeader("Content-Type", JpegType);
      } else if EndsWith(path, ".gif") {
        SendHeader("Content-Type", GifType);
      } else if EndsWith(path, ".svg") {
        SendHeader("Content-Type", SvgType);
      }
    }

    /** The overriding `end_headers`. */
    method EndHeaders()
      modifies this`buffer, this`written
      ensures written == old(written) + old(buffer) + AddedHeaders(path) + [Blank]
      ensures buffer == []
    {
      SendContentType();
      ChainIsFirstMatch(path);

      SendHeader("Cache-Control", "no-cache, no-store, must-revalidate");
      SendHeader("Pragma", "no-cache");
      SendHeader("Expires", "0");

      CloseHeaderBlock();
    }
  }

  // ----- Properties -----

  /** The if/elif chain, read off as a function of the path. */
  function Chain(path: string): Option<string>
  {
    if EndsWith(path, ".html") then Some(HtmlType)
    else if EndsWith(path, ".css") then Some(CssType)
    else if EndsWith(path, ".js") then Some(ScriptType)
    else if EndsWith(path, ".json") then Some(JsonType)
    else if EndsWith(path, ".png") then Some(PngType)
    else if EndsWith(path, ".jpg") || EndsWith(path, ".jpeg") then Some(JpegType)
    else if EndsWith(path, ".gif") then Some(GifType)
    else if EndsWith(path, ".svg") then Some(SvgType)
    else None
  }

  /** The chain chooses exactly what a first-match lookup in the suffix table chooses. */
  lemma ChainIsFirstMatch(path: string)
    ensures Chain(path) == MimeType(path)
  {
    if EndsWith(path, ".html") {
      SuffixGetsItsType(path, 0);
    } else if EndsWith(path, ".css") {
      SuffixGetsItsType(path, 1);
    } else if EndsWith(path, ".js") {
      SuffixGetsItsType(path, 2);
    } else if EndsWith(path, ".json") {
      SuffixGetsItsType(path, 3);
    } else if EndsWith(path, ".png") {
      SuffixGetsItsType(path, 4);
    } else if EndsWith(path, ".jpg") {
      SuffixGetsItsType(path, 5);
    } else if EndsWith(path, ".jpeg") {
      SuffixGetsItsType(path, 6);
    } else if EndsWith(path, ".gif") {
      SuffixGetsItsType(path, 7);
    } else if EndsWith(path, ".svg") {
      SuffixGetsItsType(path, 8);
    } else {
      NoSuffixNoType(path);
    }
  }

  /** A path that fails every test of the chain gets no type from the table either. */
  lemma NoSuffixNoType(path: string)
    requires !EndsWith(path, ".html") && !EndsWith(path, ".css") && !EndsWith(path, ".js")
    requires !EndsWith(path, ".json") && !EndsWith(path, ".png") && !EndsWith(path, ".jpg")
    requires !EndsWith(path, ".jpeg") && !EndsWith(path, ".gif") && !EndsWith(path, ".svg")
    ensures MimeType(path) == None
  {
    var t := SuffixTable;
    forall k | 0 <= k < |t| ensures !EndsWith(path, t[k].0) {
    }
    NoMatchNoType(t, path);
  }

  /** Two suffixes of one string: the shorter is a suffix of the longer. */
  lemma SuffixesNest(s: string, a: string, b: string)
    requires EndsWith(s, a) && EndsWith(s, b) && |a| <= |b|
    ensures EndsWith(b, a)
  {
    EndsWithIsSliceEquality(s, a);
    EndsWithIsSliceEquality(s, b);
    EndsWithIsSliceEquality(b, a);
    assert b[|b| - |a|..] == s[|s| - |a|..];
  }

  /** No suffix in the table ends with another one. */
  predicate SuffixFree(table: seq<(string, string)>)
  {
    forall i, j :: 0 <= i < |table| && 0 <= j < |table| && i != j ==> !EndsWith(table[i].0, table[j].0)
  }

  /** In a suffix-free table a matching entry is the one chosen, wherever it stands. */
  lemma {:induction false} MatchIsChosen(table: seq<(string, string)>, path: string, k: nat)
    requires SuffixFree(table) && k < |table| && EndsWith(path, table[k].0)
    ensures FirstMatch(table, path) == Some(table[k].1)
  {
    if k == 0 {
    } else {
      if EndsWith(path, table[0].0) {
        var a, b := table[0].0, table[k].0;
        if |a| <= |b| {
          SuffixesNest(path, a, b);
        } else {
          SuffixesNest(path, b, a);
        }
        assert false;
      }
      assert SuffixFree(table[1..]) by {
        forall i, j | 0 <= i < |table| - 1 && 0 <= j < |table| - 1 && i != j
          ensures !EndsWith(table[1..][i].0, table[1..][j].0)
        {
          assert table[1..][i] == table[i + 1] && table[1..][j] == table[j + 1];
        }
      }
      MatchIsChosen(table[1..], path, k - 1);
    }
  }

  /** A path that matches no suffix gets no type. */
  lemma {:induction false} NoMatchNoType(table: seq<(string, string)>, path: string)
    ensures FirstMatch(table, path).None? <==> forall k :: 0 <= k < |table| ==> !EndsWith(path, table[k].0)
  {
    if table != [] {
      NoMatchNoType(table[1..], path);
      assert forall k :: 1 <= k < |table| ==> table[k] == table[1..][k - 1];
    }
  }

  lemma SuffixTableIsSuffixFree()
    ensures SuffixFree(SuffixTable)
  {
    var t := SuffixTable;
    forall i, j | 0 <= i < |t| && 0 <= j < |t| && i != j
      ensures !EndsWith(t[i].0, t[j].0)
    {
    }
  }

  /**
   * Each suffix gets its own type whatever else the path looks like:
   * `.json` is never served as JavaScript, `.jpeg` and `.jpg` are both JPEG.
   */
  lemma SuffixGetsItsType(path: string, k: nat)
    requires k < |SuffixTable| && EndsWith(path, SuffixTable[k].0)
    ensures MimeType(path) == Some(SuffixTable[k].1)
  {
    SuffixTableIsSuffixFree();
    MatchIsChosen(SuffixTable, path, k);
  }

  /** A ".json" path is served as JSON, although ".js" comes earlier in the chain. */
  lemma JsonIsNotScript(path: string)
    requires EndsWith(path, ".json")
    ensures MimeType(path) == Some(JsonType) && MimeType(path) != Some(ScriptType)
  {
    SuffixGetsItsType(path, 3);
  }

  /** Both JPEG spellings get image/jpeg. */
  lemma JpegSpellings(path: string)
    requires EndsWith(path, ".jpg") || EndsWith(path, ".jpeg")
    ensures MimeType(path) == Some(JpegType)
  {
    if EndsWith(path, ".jpg") {
      SuffixGetsItsType(path, 5);
    } else {
      SuffixGetsItsType(path, 6);
    }
  }

  /** Matching is case-sensitive: a path ending in ".HTML" gets no Content-Type. */
  lemma UpperCaseSuffixUnmatched(path: string)
    requires EndsWith(path, ".HTML")
    ensures MimeType(path) == None
  {
    forall k | 0 <= k < |SuffixTable| ensures !EndsWith(path, SuffixTable[k].0) {
      var s := SuffixTable[k].0;
      if EndsWith(path, s) {
        if |s| <= 5 {
          SuffixesNest(path, s, ".HTML");
        }
        assert false;
      }
    }
    NoMatchNoType(SuffixTable, path);
  }

  /**
   * At most one Content-Type is added, ahead of the three cache headers,
   * which always come last and in this order.
   */
  lemma HeaderBlockShape(path: string)
    ensures var added := AddedHeaders(path);
      && |added| - 3 == (if MimeType(path).Some? then 1 else 0)
      && added[|added| - 3..] == CacheHeaders
      && (forall i :: 0 <= i < |added| && added[i].Header? && added[i].name == "Content-Type" ==> i == 0)
      && (MimeType(path).None? <==> forall k :: 0 <= k < |SuffixTable| ==> !EndsWith(path, SuffixTable[k].0))
  {
    NoMatchNoType(SuffixTable, path);
  }
}

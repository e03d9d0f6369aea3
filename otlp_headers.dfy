/**
 * The tracer's parsing of the `OTEL_EXPORTER_OTLP_HEADERS` setting into the
 * header map handed to the span exporter (rabbitmq-tracer/main.py, setup_telemetry).
 * The setting is a comma-separated list of `key=value` pieces.
 */
module OtlpHeaders {

  import opened Text

  /** The piece sets a header: it contains '=' and its stripped key is `key`. */
  predicate Defines(piece: string, key: string) {
    '=' in piece && Entry(piece).0 == key
  }

  /**
   * The header a piece sets: the piece is cut at its FIRST '=' (so the value
   * may itself contain '='), and key and value are stripped of whitespace.
   */
  function Entry(piece: string): (kv: (string, string))
    requires '=' in piece
  {
    var parts := SplitFirst(piece, '=');
    (Strip(parts.0), Strip(parts.1))
  }

  /** The header map after reading `pieces` in order, each setting overwriting what an earlier one set. */
  function HeadersFrom(pieces: seq<string>): map<string, string>
    decreases |pieces|
  {
    if pieces == [] then map[]
    else
      var m := HeadersFrom(pieces[..|pieces| - 1]);
      var last := pieces[|pieces| - 1];
      if '=' in last then m[Entry(last).0 := Entry(last).1] else m
  }

  /** The header map a setting describes. */
  function HeadersOf(setting: string): map<string, string> {
    if setting == "" then map[] else HeadersFrom(Split(setting, ','))
  }

  /**
   * The parse loop of setup_telemetry: skip an empty setting, split it at
   * every ',', and for each piece holding '=' store its stripped key and value.
   */
  method ParseHeaders(setting: string) returns (headers: map<string, string>)
    ensures headers == HeadersOf(setting)
    ensures setting == "" ==> headers == map[]
    ensures forall key :: key in headers <==> exists p :: p in Split(setting, ',') && Defines(p, key)
  {
    headers := map[];
    var pieces := Split(setting, ',');
    if setting != "" {
      for i := 0 to |pieces|
        invariant headers == HeadersFrom(pieces[..i])
      {
        var header := pieces[i];
        if '=' in header {
          var parts := SplitFirst(header, '=');
          headers := headers[Strip(parts.0) := Strip(parts.1)];
        }
        assert pieces[..i + 1][..i] == pieces[..i];
      }
      assert pieces[..|pieces|] == pieces;
    } else {
      assert pieces == [""];
    }
    forall key ensures key in headers <==> exists p :: p in pieces && Defines(p, key) {
      HeaderKeys(pieces, key);
    }
  }

  /** A header is present exactly when some piece sets it. */
  lemma {:induction false} HeaderKeys(pieces: seq<string>, key: string)
    ensures key in HeadersFrom(pieces) <==> exists p :: p in pieces && Defines(p, key)
    decreases |pieces|
  {
    if pieces != [] {
      var init := pieces[..|pieces| - 1];
      var last := pieces[|pieces| - 1];
      assert pieces == init + [last];
      HeaderKeys(init, key);
      if exists p :: p in init && Defines(p, key) {
        var p :| p in init && Defines(p, key);
        assert p in pieces;
      }
      if Defines(last, key) {
        assert last in pieces;
      }
      if exists p :: p in pieces && Defines(p, key) {
        var p :| p in pieces && Defines(p, key);
        if p != last {
          assert p in init;
        }
      }
    }
  }

  /** A later piece setting the same key overwrites an earlier one: the value is that of the LAST piece setting it. */
  lemma {:induction false} LastSettingWins(pieces: seq<string>, i: nat, key: string)
    requires i < |pieces| && Defines(pieces[i], key)
    requires forall j :: i < j < |pieces| ==> !Defines(pieces[j], key)
    ensures key in HeadersFrom(pieces) && HeadersFrom(pieces)[key] == Entry(pieces[i]).1
    decreases |pieces|
  {
    var init := pieces[..|pieces| - 1];
    if i < |pieces| - 1 {
      forall j | i < j < |init| ensures !Defines(init[j], key) {
        assert init[j] == pieces[j];
      }
      LastSettingWins(init, i, key);
    }
  }

  /** A piece without '=' is ignored wherever it stands in the list. */
  lemma {:induction false} PieceWithoutEqualsIgnored(before: seq<string>, piece: string, after: seq<string>)
    requires '=' !in piece
    ensures HeadersFrom(before + [piece] + after) == HeadersFrom(before + after)
    decreases |after|
  {
    if after == [] {
      assert (before + [piece] + after)[..|before| + 1 - 1] == before;
      assert before + after == before;
    } else {
      var init := after[..|after| - 1];
      var last := after[|after| - 1];
      PieceWithoutEqualsIgnored(before, piece, init);
      assert (before + [piece] + after)[..|before + [piece] + after| - 1] == before + [piece] + init;
      assert (before + after)[..|before + after| - 1] == before + init;
    }
  }

  /** A piece is cut at its first '=': whatever follows, further '=' included, is the value. */
  lemma EntryCutsAtFirstEquals(key: string, value: string)
    requires '=' !in key
    ensures '=' in key + "=" + value
    ensures Entry(key + "=" + value) == (Strip(key), Strip(value))
  {
    var piece := key + "=" + value;
    assert piece[|key|] == '=';
    assert piece[..|key|] == key;
    IndexOfFirst(piece, '=', |key|);
    assert piece[|key| + 1..] == value;
  }
}

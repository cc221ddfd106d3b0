/** Properties of the `decodeHtml` model (parser.js:197-300). */
module DecodeFacts {
  import opened Seqs
  import opened Parser

  // ---------------------------------------------------------------------------
  // decodeHtml

  /** Text without `&` is returned unchanged. */
  lemma DecodeNoAmp(raw: string, asAttr: bool)
    requires forall i | 0 <= i < |raw| :: raw[i] != '&'
    ensures Decode(raw, asAttr) == Ok(raw)
  {
  }

  /** The keys of the table. */
  lemma LookupKeys(name: string)
    requires Lookup(RefTable, name).Some?
    ensures name == "gt" || name == "gt;" || name == "lt" || name == "lt;" || name == "ltcc;"
  {
  }

  /**
   * The search picks the longest key that the text after `&` starts with,
   * trying at most len characters; without one it falls back to the first
   * character.
   */
  lemma {:induction false} RefSearchLongest(r: string, len: nat)
    requires |r| >= 1 && len >= 1
    ensures var (name, v) := RefSearch(r, len);
      && name == RefName(r, |name|)
      && (v.Some? ==> Lookup(RefTable, name) == v && |name| <= len)
      && (forall j | 1 <= j <= len && |RefName(r, j)| > |name| :: Lookup(RefTable, RefName(r, j)).None?)
      && (v.None? ==> name == RefName(r, 1) && forall j | 1 <= j <= len :: Lookup(RefTable, RefName(r, j)).None?)
    decreases len
  {
    var name := RefName(r, len);
    if Lookup(RefTable, name).None? && len > 1 {
      RefSearchLongest(r, len - 1);
      var (name', v') := RefSearch(r, len - 1);
      forall j | 1 <= j <= len && |RefName(r, j)| > |name'|
        ensures Lookup(RefTable, RefName(r, j)).None?
      {
        if j == len {
        }
      }
      if v'.None? {
        forall j | 1 <= j <= len
          ensures Lookup(RefTable, RefName(r, j)).None?
        {
          if j == len {
          }
        }
      }
    }
  }

  /** A reference consumes no `&` but its own. */
  lemma RefStepNoAmp(r: string, asAttr: bool)
    requires |r| >= 1 && r[0] == '&' && !IsHexHead(r)
    ensures forall j | 1 <= j < RefStep(r, asAttr).1 :: r[j] != '&'
  {
    if |r| < 2 || IsAlnum(r[1]) {
      RefSearchLongest(r, 5);
      var (name, v) := RefSearch(r, 5);
      if v.Some? {
        LookupKeys(name);
      }
      assert r[1..1 + |name|] == name;
      forall j | 1 <= j < 1 + |name|
        ensures r[j] != '&'
      {
        assert r[j] == name[j - 1];
      }
    }
  }

  /** A name that is no key, whatever the length tried, is copied as `&` and its first character. */
  lemma RefStepUnknown(r: string, asAttr: bool)
    requires |r| >= 1 && r[0] == '&' && (|r| < 2 || IsAlnum(r[1]))
    requires forall j | 1 <= j <= 5 :: Lookup(RefTable, RefName(r, j)).None?
    ensures RefStep(r, asAttr) == ("&" + RefName(r, 1), 1 + |RefName(r, 1)|)
  {
    RefSearchLongest(r, 5);
  }

  /**
   * In an attribute value, a reference without `;` that is followed by
   * `=` or an alphanumeric character stays as written; in text it is
   * decoded.
   */
  lemma RefStepInAttribute(r: string)
    requires |r| >= 2 && r[0] == '&' && IsAlnum(r[1])
    requires RefSearch(r, 5).1.Some?
    requires var name := RefSearch(r, 5).0;
      && !(|name| > 0 && name[|name| - 1] == ';')
      && 1 + |name| < |r| && (r[1 + |name|] == '=' || IsAlnum(r[1 + |name|]))
    ensures var (name, v) := RefSearch(r, 5);
      && RefStep(r, true) == ("&" + name, 1 + |name|)
      && RefStep(r, false) == (v.value, 1 + |name|)
  {
  }

  /** `&#` and decimal digits: the clamped code point, and the `;` is consumed when present. */
  lemma RefStepDecimal(ds: string, rest: string, asAttr: bool)
    requires ds != [] && forall i | 0 <= i < |ds| :: IsDigit(ds[i])
    requires rest == [] || !IsDigit(rest[0])
    ensures var r := "&#" + ds + rest;
      && IsDigit(r[2])
      && RefStep(r, asAttr) == ([Clamp(DecimalValue(ds)) as char], 2 + |ds| + if rest != [] && rest[0] == ';' then 1 else 0)
  {
    DecimalShape(ds, rest);
    RefStepDigits("&#" + ds + rest, ds, rest, asAttr);
  }

  /** Where the digits and the rest sit in `&#` + ds + rest. */
  lemma DecimalShape(ds: string, rest: string)
    requires ds != [] && forall i | 0 <= i < |ds| :: IsDigit(ds[i])
    requires rest == [] || !IsDigit(rest[0])
    ensures var r := "&#" + ds + rest; var m := 2 + |ds|;
      && |r| >= 3 && r[0] == '&' && r[1] == '#' && IsDigit(r[2])
      && m <= |r| && Run(r[2..], Digit) == |ds| && r[2..m] == ds
      && (m < |r| <==> rest != []) && (rest != [] ==> r[m] == rest[0])
  {
    var r := "&#" + ds + rest;
    var tail := ds + rest;
    var m := 2 + |ds|;
    assert r[2..] == tail && r[0] == '&' && r[1] == '#' by {
      assert r == "&#" + tail;
      DropConcat("&#", tail);
    }
    assert Run(r[2..], Digit) == |ds| by {
      RunPrefix(ds, rest, Digit);
    }
    assert r[2..m] == ds by {
      DropConcat(ds, rest);
    }
    assert r == "&#" + ds + rest;
  }

  /** `&#` and the digits ds, with the rest of the source named. */
  lemma RefStepDigits(r: string, ds: string, rest: string, asAttr: bool)
    requires |r| >= 3 && r[0] == '&' && r[1] == '#' && IsDigit(r[2])
    requires 2 + |ds| <= |r| && Run(r[2..], Digit) == |ds| && r[2..2 + |ds|] == ds
    requires (2 + |ds| < |r| <==> rest != []) && (rest != [] ==> r[2 + |ds|] == rest[0])
    ensures RefStep(r, asAttr) == ([Clamp(DecimalValue(ds)) as char], 2 + |ds| + if rest != [] && rest[0] == ';' then 1 else 0)
  {
    RefStepHash(r, asAttr);
  }

  lemma RefStepHash(r: string, asAttr: bool)
    requires |r| >= 3 && r[0] == '&' && r[1] == '#' && IsDigit(r[2])
    ensures !IsHexHead(r)
    ensures var m := 2 + Run(r[2..], Digit);
      RefStep(r, asAttr) == ([Clamp(DecimalValue(r[2..m])) as char], m + if m < |r| && r[m] == ';' then 1 else 0)
  {
    assert !IsAlnum(r[1]);
  }

  lemma DropConcat(a: string, b: string)
    ensures (a + b)[|a|..] == b && (a + b)[..|a|] == a
  {
  }

  lemma {:induction false} RunPrefix(xs: string, rest: string, k: CharClass)
    requires forall i | 0 <= i < |xs| :: In(xs[i], k)
    requires rest == [] || !In(rest[0], k)
    ensures Run(xs + rest, k) == |xs|
    decreases |xs|
  {
    if xs != [] {
      assert (xs + rest)[1..] == xs[1..] + rest;
      RunPrefix(xs[1..], rest, k);
    } else {
      assert xs + rest == rest;
    }
  }

  /** `&#` without digits and not starting `&#x` is copied as `&`, consuming one character. */
  lemma RefStepNoDigits(rest: string, asAttr: bool)
    requires rest == [] || (!IsDigit(rest[0]) && rest[0] != 'x' && rest[0] != 'X')
    ensures RefStep("&#" + rest, asAttr) == ("&", 1)
  {
    var r := "&#" + rest;
    assert r[2..] == rest;
  }

  /** The replacement character stands for 0, surrogates and values beyond U+10FFFF; other values are kept. */
  lemma ClampReplaces(cp: nat)
    ensures Clamp(cp) == 0xFFFD <==> (cp == 0 || cp > 0x10FFFF || 0xD800 <= cp <= 0xDFFF || cp == 0xFFFD)
    ensures Clamp(cp) != 0xFFFD ==> Clamp(cp) == cp
  {
  }

  /** Some occurrence of `&#x` or `&#X`. */
  predicate HasHexHead(s: string) {
    exists k | 0 <= k < |s| :: IsHexHead(s[k..])
  }

  lemma HexInRest(r: string, n: nat, k: nat)
    requires n <= k < |r| && IsHexHead(r[k..])
    ensures HasHexHead(r[n..])
  {
    assert r[n..][k - n..] == r[k..];
  }

  lemma HexFromRest(raw: string, m: nat)
    requires m <= |raw| && HasHexHead(raw[m..])
    ensures HasHexHead(raw)
  {
    var k :| 0 <= k < |raw[m..]| && IsHexHead(raw[m..][k..]);
    assert raw[m..][k..] == raw[m + k..];
  }

  lemma NoAmpNoHex(raw: string)
    requires forall i | 0 <= i < |raw| :: raw[i] != '&'
    ensures !HasHexHead(raw)
  {
    forall k | 0 <= k < |raw|
      ensures !IsHexHead(raw[k..])
    {
      assert raw[k..][0] == raw[k];
    }
  }

  /** A hex head after the first reference lies beyond the characters that reference consumed. */
  lemma HexAfterRef(raw: string, asAttr: bool, h: nat, n: nat)
    requires h == FirstAmp(raw) && !IsHexHead(raw[h..])
    requires n == RefStep(raw[h..], asAttr).1
    requires HasHexHead(raw)
    ensures HasHexHead(raw[h..][n..])
  {
    var r := raw[h..];
    var k :| 0 <= k < |raw| && IsHexHead(raw[k..]);
    assert raw[k] == '&';
    RefStepNoAmp(r, asAttr);
    assert r[k - h] == '&';
    assert r[k - h..] == raw[k..];
    HexInRest(r, n, k - h);
  }

  lemma HexBeforeRest(raw: string, h: nat, n: nat)
    requires h <= |raw| && n <= |raw| - h
    requires HasHexHead(raw[h..][n..])
    ensures HasHexHead(raw)
  {
    assert raw[h..][n..] == raw[h + n..];
    HexFromRest(raw, h + n);
  }

  lemma AfterKind(d: string, r: Result<string>)
    ensures After(d, r).Diverged? == r.Diverged?
    ensures After(d, r).Ok? == r.Ok?
  {
  }

  /** `decodeHtml` returns exactly when the text holds no `&#x` or `&#X`. */
  lemma {:induction false} DecodeDivergesIffHex(raw: string, asAttr: bool)
    ensures Decode(raw, asAttr).Diverged? <==> HasHexHead(raw)
    ensures !HasHexHead(raw) ==> Decode(raw, asAttr).Ok?
    decreases |raw|
  {
    var h := FirstAmp(raw);
    DecodeStep(raw, asAttr, h);
    if h < 0 {
      NoAmpNoHex(raw);
    } else if IsHexHead(raw[h..]) {
      // `h` itself witnesses the hex head
      assert 0 <= h < |raw| && IsHexHead(raw[h..]);
    } else {
      var n := RefStep(raw[h..], asAttr).1;
      var rest := raw[h..][n..];
      DecodeDivergesIffHex(rest, asAttr);
      AfterKind(raw[..h] + RefStep(raw[h..], asAttr).0, Decode(rest, asAttr));
      if HasHexHead(raw) {
        HexAfterRef(raw, asAttr, h, n);
      }
      if HasHexHead(rest) {
        HexBeforeRest(raw, h, n);
      }
    }
  }

  /** `&lt;` is `<`. */
  lemma DecodeLt()
    ensures Decode("&lt;", false) == Ok("<")
  {
    var r := "&lt;";
    assert RefName(r, 5) == "lt;";
    assert RefSearch(r, 5) == ("lt;", Some("<"));
    assert RefStep(r, false) == ("<", 4);
    assert FirstAmp(r) == 0;
    DecodeStep(r, false, 0);
    assert r[0..] == r && r[..0] == [] && r[4..] == [];
    assert !IsHexHead(r);
    DecodeNoAmp([], false);
    assert r[..0] + "<" + [] == "<";
  }

  /** `&gt` without `;` is `>`: the name tried is cut at the end of the text. */
  lemma DecodeGt()
    ensures Decode("&gt", false) == Ok(">")
  {
    var r := "&gt";
    assert RefName(r, 5) == "gt";
    assert RefSearch(r, 5) == ("gt", Some(">"));
    assert RefStep(r, false) == (">", 3);
    assert FirstAmp(r) == 0;
    DecodeStep(r, false, 0);
    assert r[0..] == r && r[..0] == [] && r[3..] == [];
    assert !IsHexHead(r);
    DecodeNoAmp([], false);
    assert r[..0] + ">" + [] == ">";
  }

  /** `&ltcc;` is U+2AA6, not `<` followed by `cc;`: the longest key wins. */
  lemma DecodeLtcc()
    ensures Decode("&ltcc;", false) == Ok("\U{2AA6}")
  {
    var r := "&ltcc;";
    assert RefName(r, 5) == "ltcc;";
    assert RefSearch(r, 5) == ("ltcc;", Some("\U{2AA6}"));
    assert RefStep(r, false) == ("\U{2AA6}", 6);
    assert FirstAmp(r) == 0;
    DecodeStep(r, false, 0);
    assert r[0..] == r && r[..0] == [] && r[6..] == [];
    assert !IsHexHead(r);
    DecodeNoAmp([], false);
    assert r[..0] + "\U{2AA6}" + [] == "\U{2AA6}";
  }
}

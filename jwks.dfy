/**
 * JWKSUtils: selecting the keys of a JSON Web Key Set that serve one purpose,
 * the "use" parameter of section 4.2 of RFC 7517. The io.github.hacks1ash and
 * com.odradek copies of JWKSUtils are the same code in a different order.
 */
module Jwks {
  import opened Common

  /** JWK.Use: the requested purpose. */
  datatype JwkUse = Sig | Enc

  /** JWK.Use.asString(). */
  function UseString(u: JwkUse): string
  {
    match u
    case Sig => "sig"
    case Enc => "enc"
  }

  /** Keycloak's KeyUse, stored in a KeyWrapper. */
  datatype KeyUse = SIG | ENC

  /** Public key material, as JWKParser.toPublicKey builds it. */
  datatype PublicKey = PublicKey(kty: string, encoded: seq<int>)

  /** One entry of a JSON Web Key Set; params holds the type-specific members (n, e, crv, x, y, ...). */
  datatype Jwk = Jwk(
    kid: Option<string>,
    kty: string,
    alg: Option<string>,
    use: Option<string>,
    params: map<string, string>)

  /**
   * The two operations of Keycloak's JWKParser the adapter calls; both are
   * outside this model. toPublicKey gives None where JWKParser throws (key
   * material it cannot decode).
   */
  datatype KeyParser = KeyParser(isKeyTypeSupported: string -> bool, toPublicKey: Jwk -> Option<PublicKey>)

  /** Keycloak's KeyWrapper as getKeyWrappersForUse fills it; algorithm stays null unless set. */
  datatype KeyWrapper = KeyWrapper(
    kid: Option<string>,
    algorithm: Option<string>,
    kty: string,
    use: Option<KeyUse>,
    publicKey: PublicKey)

  /** getKeyUse: the switch from a "use" string to a KeyUse; any other string gives null. */
  function KeyUseOf(s: string): (r: Option<KeyUse>)
    ensures r == Some(SIG) <==> s == "sig"
    ensures r == Some(ENC) <==> s == "enc"
    ensures r == None <==> s != "sig" && s != "enc"
  {
    if s == "sig" then Some(SIG)
    else if s == "enc" then Some(ENC)
    else None
  }

  /** The KeyUse that belongs to each requested use. */
  function KeyUseFor(u: JwkUse): KeyUse
  {
    match u
    case Sig => SIG
    case Enc => ENC
  }

  /** getKeyUse undoes asString: a JWK.Use written out and read back gives the matching KeyUse. */
  lemma KeyUseOfUseString(u: JwkUse)
    ensures KeyUseOf(UseString(u)) == Some(KeyUseFor(u))
  {
  }

  /** The test both loops apply: "use" present, equal to the requested use, and a supported key type. */
  predicate Qualifies(jwk: Jwk, requested: JwkUse, parser: KeyParser)
  {
    jwk.use.Some? && jwk.use.value == UseString(requested) && parser.isKeyTypeSupported(jwk.kty)
  }

  /** The KeyWrapper built for a qualifying entry whose key material parses. */
  function Wrap(jwk: Jwk, parser: KeyParser): KeyWrapper
    requires jwk.use.Some? && parser.toPublicKey(jwk).Some?
  {
    KeyWrapper(jwk.kid, jwk.alg, jwk.kty, KeyUseOf(jwk.use.value), parser.toPublicKey(jwk).value)
  }

  /** A qualifying entry on which toPublicKey throws. */
  predicate Unparsable(jwk: Jwk, requested: JwkUse, parser: KeyParser)
  {
    Qualifies(jwk, requested, parser) && parser.toPublicKey(jwk).None?
  }

  /** Two partial lists joined: an exception in either part is an exception of the whole. */
  function Join(a: Option<seq<KeyWrapper>>, b: Option<seq<KeyWrapper>>): Option<seq<KeyWrapper>>
  {
    if a.Some? && b.Some? then Some(a.value + b.value) else None
  }

  /**
   * What getKeyWrappersForUse returns: the qualifying entries, wrapped, in
   * key-set order; None when toPublicKey throws on one of them.
   */
  function WrappersForUse(keys: seq<Jwk>, requested: JwkUse, parser: KeyParser): (r: Option<seq<KeyWrapper>>)
    ensures r.Some? ==> |r.value| <= |keys|
  {
    if keys == [] then Some([])
    else if !Qualifies(keys[0], requested, parser) then WrappersForUse(keys[1..], requested, parser)
    else if parser.toPublicKey(keys[0]).None? then None
    else Join(Some([Wrap(keys[0], parser)]), WrappersForUse(keys[1..], requested, parser))
  }

  /** The loop throws exactly when some qualifying entry has key material toPublicKey cannot decode. */
  lemma {:induction false} WrappersForUseThrows(keys: seq<Jwk>, requested: JwkUse, parser: KeyParser)
    ensures WrappersForUse(keys, requested, parser).None?
        <==> exists j | j in keys :: Unparsable(j, requested, parser)
  {
    if keys != [] {
      WrappersForUseThrows(keys[1..], requested, parser);
      assert forall j | j in keys :: j == keys[0] || j in keys[1..];
      if Unparsable(keys[0], requested, parser) {
        assert keys[0] in keys;
      }
    }
  }

  /** Every wrapper in the list wraps a qualifying entry and carries the requested KeyUse. */
  lemma {:induction false} WrappersForUseSound(keys: seq<Jwk>, requested: JwkUse, parser: KeyParser)
    requires WrappersForUse(keys, requested, parser).Some?
    ensures forall w | w in WrappersForUse(keys, requested, parser).value ::
      exists j | j in keys :: Qualifies(j, requested, parser) && parser.toPublicKey(j).Some? && w == Wrap(j, parser)
    ensures forall w | w in WrappersForUse(keys, requested, parser).value :: w.use == Some(KeyUseFor(requested))
  {
    if keys != [] {
      WrappersForUseSound(keys[1..], requested, parser);
      KeyUseOfUseString(requested);
      assert forall j | j in keys[1..] :: j in keys;
    }
  }

  /** When the loop completes, every qualifying entry appears, wrapped, in the list. */
  lemma {:induction false} WrappersForUseComplete(keys: seq<Jwk>, requested: JwkUse, parser: KeyParser, j: Jwk)
    requires j in keys && Qualifies(j, requested, parser)
    requires WrappersForUse(keys, requested, parser).Some?
    ensures parser.toPublicKey(j).Some? && Wrap(j, parser) in WrappersForUse(keys, requested, parser).value
  {
    if keys[0] != j {
      WrappersForUseComplete(keys[1..], requested, parser, j);
    }
  }

  /** The filter keeps key-set order: the list for a concatenation is the concatenation of the lists. */
  lemma {:induction false} WrappersForUseAppend(a: seq<Jwk>, b: seq<Jwk>, requested: JwkUse, parser: KeyParser)
    ensures WrappersForUse(a + b, requested, parser)
         == Join(WrappersForUse(a, requested, parser), WrappersForUse(b, requested, parser))
  {
    if a != [] {
      assert (a + b)[1..] == a[1..] + b;
      WrappersForUseAppend(a[1..], b, requested, parser);
      if Qualifies(a[0], requested, parser) && parser.toPublicKey(a[0]).Some? {
        var w := Wrap(a[0], parser);
        var x := WrappersForUse(a[1..], requested, parser);
        var y := WrappersForUse(b, requested, parser);
        if x.Some? && y.Some? {
          assert [w] + (x.value + y.value) == ([w] + x.value) + y.value;
        }
      }
    } else {
      assert a + b == b;
      var y := WrappersForUse(b, requested, parser);
      if y.Some? {
        assert [] + y.value == y.value;
      }
    }
  }

  /** Entries without "use", or with another use than the requested one, contribute nothing. */
  lemma SkippedEntry(j: Jwk, rest: seq<Jwk>, requested: JwkUse, parser: KeyParser)
    requires j.use.None? || j.use.value != UseString(requested)
    ensures WrappersForUse([j] + rest, requested, parser) == WrappersForUse(rest, requested, parser)
  {
  }

  /** One step of the filter, at position i of the key set. */
  lemma WrappersForUseStep(keys: seq<Jwk>, i: int, requested: JwkUse, parser: KeyParser)
    requires 0 <= i < |keys|
    ensures WrappersForUse(keys[i..], requested, parser)
         == if !Qualifies(keys[i], requested, parser) then WrappersForUse(keys[i + 1..], requested, parser)
            else if parser.toPublicKey(keys[i]).None? then None
            else Join(Some([Wrap(keys[i], parser)]), WrappersForUse(keys[i + 1..], requested, parser))
  {
    assert keys[i..][1..] == keys[i + 1..];
  }

  /** Appending one wrapper to the finished part of the list. */
  lemma JoinAppend(list: seq<KeyWrapper>, w: KeyWrapper, rest: Option<seq<KeyWrapper>>)
    ensures Join(Some(list), Join(Some([w]), rest)) == Join(Some(list + [w]), rest)
  {
    if rest.Some? {
      assert list + ([w] + rest.value) == (list + [w]) + rest.value;
    }
  }

  /**
   * getKeyWrappersForUse: a loop that appends a wrapper for every qualifying
   * entry; None is the exception toPublicKey throws, which leaves the loop.
   */
  method GetKeyWrappersForUse(keySet: seq<Jwk>, requested: JwkUse, parser: KeyParser) returns (result: Option<seq<KeyWrapper>>)
    ensures result == WrappersForUse(keySet, requested, parser)
  {
    var list: seq<KeyWrapper> := [];
    var i := 0;
    var all := WrappersForUse(keySet, requested, parser);
    assert keySet[0..] == keySet;
    if all.Some? {
      assert [] + all.value == all.value;
    }
    while i < |keySet|
      invariant 0 <= i <= |keySet|
      invariant Join(Some(list), WrappersForUse(keySet[i..], requested, parser)) == WrappersForUse(keySet, requested, parser)
    {
      var jwk := keySet[i];
      WrappersForUseStep(keySet, i, requested, parser);
      if jwk.use.None? {
        // ignored: missing required field 'use'
      } else if UseString(requested) == jwk.use.value && parser.isKeyTypeSupported(jwk.kty) {
        var wrapper := KeyWrapper(jwk.kid, None, jwk.kty, None, PublicKey("", []));
        if jwk.alg.Some? {
          wrapper := wrapper.(algorithm := jwk.alg);
        }
        wrapper := wrapper.(use := KeyUseOf(jwk.use.value));
        var publicKey := parser.toPublicKey(jwk);
        if publicKey.None? {
          return None;
        }
        wrapper := wrapper.(publicKey := publicKey.value);
        assert wrapper == Wrap(jwk, parser);
        JoinAppend(list, wrapper, WrappersForUse(keySet[i + 1..], requested, parser));
        list := list + [wrapper];
      }
      i := i + 1;
    }
    assert keySet[|keySet|..] == [];
    assert list + [] == list;
    return Some(list);
  }

  /** The entry getKeyForUse returns: the first qualifying one, or null. */
  function FirstForUse(keys: seq<Jwk>, requested: JwkUse, parser: KeyParser): (r: Option<Jwk>)
    ensures r.None? <==> forall j | j in keys :: !Qualifies(j, requested, parser)
    ensures r.Some? ==> exists i | 0 <= i < |keys| ::
      keys[i] == r.value && Qualifies(keys[i], requested, parser)
      && forall k | 0 <= k < i :: !Qualifies(keys[k], requested, parser)
  {
    if keys == [] then None
    else if Qualifies(keys[0], requested, parser) then Some(keys[0])
    else
      var r := FirstForUse(keys[1..], requested, parser);
      assert forall j | j in keys :: j == keys[0] || j in keys[1..];
      if r.Some? then
        var i :| 0 <= i < |keys[1..]| && keys[1..][i] == r.value && Qualifies(keys[1..][i], requested, parser)
          && forall k | 0 <= k < i :: !Qualifies(keys[1..][k], requested, parser);
        assert forall k | 0 <= k < i + 1 :: !Qualifies(keys[k], requested, parser) by {
          forall k | 0 <= k < i + 1 ensures !Qualifies(keys[k], requested, parser) {
            if k > 0 { assert keys[k] == keys[1..][k - 1]; }
          }
        }
        assert keys[i + 1] == r.value;
        r
      else r
  }

  /** getKeyForUse: a search loop with an early return. */
  method GetKeyForUse(keySet: seq<Jwk>, requested: JwkUse, parser: KeyParser) returns (r: Option<Jwk>)
    ensures r == FirstForUse(keySet, requested, parser)
  {
    var i := 0;
    while i < |keySet|
      invariant 0 <= i <= |keySet|
      invariant FirstForUse(keySet[i..], requested, parser) == FirstForUse(keySet, requested, parser)
    {
      var jwk := keySet[i];
      assert keySet[i..][1..] == keySet[i + 1..];
      if jwk.use.None? {
        // ignored: missing required field 'use'
      } else if UseString(requested) == jwk.use.value && parser.isKeyTypeSupported(jwk.kty) {
        return Some(jwk);
      }
      i := i + 1;
    }
    return None;
  }

  /**
   * getKeyForUse finds nothing exactly when getKeyWrappersForUse gives the
   * empty list, and when both succeed its entry is the first wrapper's.
   */
  lemma {:induction false} KeyForUseHeadsWrappers(keys: seq<Jwk>, requested: JwkUse, parser: KeyParser)
    ensures FirstForUse(keys, requested, parser).None? <==> WrappersForUse(keys, requested, parser) == Some([])
    ensures FirstForUse(keys, requested, parser).Some? && WrappersForUse(keys, requested, parser).Some? ==>
      && parser.toPublicKey(FirstForUse(keys, requested, parser).value).Some?
      && WrappersForUse(keys, requested, parser).value != []
      && WrappersForUse(keys, requested, parser).value[0] == Wrap(FirstForUse(keys, requested, parser).value, parser)
  {
    if keys != [] && !Qualifies(keys[0], requested, parser) {
      KeyForUseHeadsWrappers(keys[1..], requested, parser);
    }
  }

  /** Collectors.toMap succeeds on a wrapper list whose kids are all non-null and pairwise distinct. */
  predicate UniqueKids(ws: seq<KeyWrapper>)
  {
    && (forall i | 0 <= i < |ws| :: ws[i].kid.Some?)
    && (forall i, k | 0 <= i < k < |ws| :: ws[i].kid != ws[k].kid)
  }

  /** The kids of a wrapper list. */
  function Kids(ws: seq<KeyWrapper>): set<string>
  {
    set w | w in ws && w.kid.Some? :: w.kid.value
  }

  /** Collectors.toMap(KeyWrapper::getKid, KeyWrapper::getPublicKey). */
  function ToKeyMap(ws: seq<KeyWrapper>): (m: map<string, PublicKey>)
    requires UniqueKids(ws)
    ensures m.Keys == Kids(ws)
    ensures forall i | 0 <= i < |ws| :: ws[i].kid.value in m && m[ws[i].kid.value] == ws[i].publicKey
  {
    if ws == [] then map[]
    else
      KidsCons(ws);
      var rest := ToKeyMap(ws[1..]);
      rest[ws[0].kid.value := ws[0].publicKey]
  }

  /** The tail of a list with unique kids has unique kids, none of them the head's. */
  lemma KidsCons(ws: seq<KeyWrapper>)
    requires ws != [] && UniqueKids(ws)
    ensures UniqueKids(ws[1..])
    ensures Kids(ws) == {ws[0].kid.value} + Kids(ws[1..])
    ensures forall i | 1 <= i < |ws| :: ws[i] == ws[1..][i - 1] && ws[i].kid.value != ws[0].kid.value
  {
    assert forall w | w in ws :: w == ws[0] || w in ws[1..];
  }

  /** The signature wrappers of a key set parse and have unique, non-null kids: then toMap succeeds. */
  predicate SigKeysDefined(keys: seq<Jwk>, parser: KeyParser)
  {
    WrappersForUse(keys, Sig, parser).Some? && UniqueKids(WrappersForUse(keys, Sig, parser).value)
  }

  /** The kid -> public key map of the signature keys of a key set (also JWKSUtils.getKeysForUse). */
  function SigKeys(keys: seq<Jwk>, parser: KeyParser): (m: map<string, PublicKey>)
    requires SigKeysDefined(keys, parser)
    ensures forall kid | kid in m :: exists j | j in keys :: j.kid == Some(kid) && Qualifies(j, Sig, parser)
    ensures forall j | j in keys && Qualifies(j, Sig, parser) ::
      && parser.toPublicKey(j).Some? && j.kid.Some? && j.kid.value in m
      && m[j.kid.value] == parser.toPublicKey(j).value
  {
    var ws := WrappersForUse(keys, Sig, parser).value;
    var m := ToKeyMap(ws);
    WrappersForUseSound(keys, Sig, parser);
    assert forall j | j in keys && Qualifies(j, Sig, parser) :: parser.toPublicKey(j).Some? && Wrap(j, parser) in ws by {
      forall j | j in keys && Qualifies(j, Sig, parser) ensures parser.toPublicKey(j).Some? && Wrap(j, parser) in ws {
        WrappersForUseComplete(keys, Sig, parser, j);
      }
    }
    m
  }

  /** An entry whose kid is only ever marked "enc" never reaches the signature key map. */
  lemma EncKeysExcluded(keys: seq<Jwk>, parser: KeyParser, kid: string)
    requires SigKeysDefined(keys, parser)
    requires forall j | j in keys && j.kid == Some(kid) :: j.use == Some("enc")
    ensures kid !in SigKeys(keys, parser)
  {
  }
}

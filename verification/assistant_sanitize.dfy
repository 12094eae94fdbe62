/** The privacy filter applied to a payload before it is shown to the
    writing assistant: every member whose key names personal data is
    dropped, at every depth, from dicts and from dicts inside lists. */
module AssistantSanitize {

  import opened Wrappers
  import opened Json

  /** Identity documents, bank details and contact data. */
  const SensitiveKeys: set<string> :=
    {"cpf", "rg", "siape", "dados_bancarios", "banco", "agencia", "conta",
     "nome_mae", "endereco", "telefone", "email"}

  /** A value with no sensitive key at any depth. */
  predicate NoSensitive(v: Value) {
    match v
    case Obj(ms) => forall i :: 0 <= i < |ms| ==> ms[i].key !in SensitiveKeys && NoSensitive(ms[i].value)
    case Arr(xs) => forall i :: 0 <= i < |xs| ==> NoSensitive(xs[i])
    case _ => true
  }

  /** The members whose key is not sensitive, in their order. */
  function DropSensitive(ms: seq<Member>): (r: seq<Member>)
    ensures forall m :: m in r ==> m in ms && m.key !in SensitiveKeys
    ensures |r| <= |ms|
  {
    if ms == [] then []
    else if ms[0].key in SensitiveKeys then DropSensitive(ms[1..])
    else [ms[0]] + DropSensitive(ms[1..])
  }

  /** `_remove_keys`: a dict loses its sensitive members and the others
      are filtered in turn; a list is filtered item by item; anything else
      is returned as it is. Filtering every member before dropping the
      sensitive ones gives the same dict as the program's loop, which
      skips them first, because the filter has no effects. */
  function RemoveKeys(v: Value): (r: Value)
    ensures v.Obj? <==> r.Obj?
    ensures v.Arr? <==> r.Arr?
    ensures v.Arr? ==> |r.items| == |v.items|
    ensures !v.Obj? && !v.Arr? ==> r == v
  {
    match v
    case Obj(ms) =>
      Obj(DropSensitive(seq(|ms|, i requires 0 <= i < |ms| => Member(ms[i].key, RemoveKeys(ms[i].value)))))
    case Arr(xs) => Arr(seq(|xs|, i requires 0 <= i < |xs| => RemoveKeys(xs[i])))
    case _ => v
  }

  /** `sanitize_payload`: `_remove_keys` on a copy of the payload. Values
      are immutable here, so the copy that keeps the caller's payload
      intact is implicit. */
  function SanitizePayload(payload: seq<Member>): (r: seq<Member>)
    ensures NoSensitive(Obj(r))
    ensures forall k :: k in SensitiveKeys ==> Lookup(r, k).None?
    ensures forall k :: k !in SensitiveKeys ==>
      Lookup(r, k) == (if Lookup(payload, k).Some? then Some(RemoveKeys(Lookup(payload, k).value)) else None)
  {
    RemoveKeysClean(Obj(payload));
    forall k | k !in SensitiveKeys
      ensures Lookup(RemoveKeys(Obj(payload)).members, k)
        == (if Lookup(payload, k).Some? then Some(RemoveKeys(Lookup(payload, k).value)) else None)
    {
      RemoveKeysLookup(payload, k);
    }
    forall k | k in SensitiveKeys
      ensures Lookup(RemoveKeys(Obj(payload)).members, k).None?
    {
      RemoveKeysLookup(payload, k);
    }
    RemoveKeys(Obj(payload)).members
  }

  /* ---------------------------------------------------------------------- */
  /* Properties                                                              */
  /* ---------------------------------------------------------------------- */

  /** Nothing sensitive is left, at any depth. */
  lemma {:induction false} RemoveKeysClean(v: Value)
    ensures NoSensitive(RemoveKeys(v))
    decreases v
  {
    match v
    case Obj(ms) =>
      var filtered := seq(|ms|, i requires 0 <= i < |ms| => Member(ms[i].key, RemoveKeys(ms[i].value)));
      forall i | 0 <= i < |ms|
        ensures NoSensitive(filtered[i].value)
      {
        RemoveKeysClean(ms[i].value);
      }
      var r := DropSensitive(filtered);
      forall i | 0 <= i < |r|
        ensures r[i].key !in SensitiveKeys && NoSensitive(r[i].value)
      {
        assert r[i] in filtered;
      }
    case Arr(xs) =>
      forall i | 0 <= i < |xs|
        ensures NoSensitive(RemoveKeys(xs[i]))
      {
        RemoveKeysClean(xs[i]);
      }
    case _ =>
  }

  /** Looking a key up after dropping: a sensitive key is gone, any other
      key finds what it found before. */
  lemma {:induction false} DropSensitiveLookup(ms: seq<Member>, k: string)
    ensures k in SensitiveKeys ==> Lookup(DropSensitive(ms), k).None?
    ensures k !in SensitiveKeys ==> Lookup(DropSensitive(ms), k) == Lookup(ms, k)
  {
    if ms != [] {
      DropSensitiveLookup(ms[1..], k);
      if ms[0].key !in SensitiveKeys {
        assert ([ms[0]] + DropSensitive(ms[1..]))[1..] == DropSensitive(ms[1..]);
      }
    }
  }

  /** Looking a key up in a dict whose values were all filtered. */
  lemma {:induction false} MappedLookup(ms: seq<Member>, k: string)
    ensures Lookup(seq(|ms|, i requires 0 <= i < |ms| => Member(ms[i].key, RemoveKeys(ms[i].value))), k)
      == (if Lookup(ms, k).Some? then Some(RemoveKeys(Lookup(ms, k).value)) else None)
  {
    var mapped := seq(|ms|, i requires 0 <= i < |ms| => Member(ms[i].key, RemoveKeys(ms[i].value)));
    if ms != [] {
      var rest := seq(|ms[1..]|, i requires 0 <= i < |ms[1..]| => Member(ms[1..][i].key, RemoveKeys(ms[1..][i].value)));
      assert mapped[1..] == rest;
      MappedLookup(ms[1..], k);
    }
  }

  /** The filtered dict keeps every non-sensitive key with its value
      filtered in turn, and has no sensitive key. */
  lemma RemoveKeysLookup(ms: seq<Member>, k: string)
    ensures k in SensitiveKeys ==> Lookup(RemoveKeys(Obj(ms)).members, k).None?
    ensures k !in SensitiveKeys ==>
      (Lookup(RemoveKeys(Obj(ms)).members, k) == (if Lookup(ms, k).Some? then Some(RemoveKeys(Lookup(ms, k).value)) else None))
  {
    var filtered := seq(|ms|, i requires 0 <= i < |ms| => Member(ms[i].key, RemoveKeys(ms[i].value)));
    assert RemoveKeys(Obj(ms)).members == DropSensitive(filtered);
    DropSensitiveLookup(filtered, k);
    MappedLookup(ms, k);
  }

  /** The keys of the filtered dict are the non-sensitive keys of the
      original, in their order. */
  lemma {:induction false} DropSensitiveKeys(ms: seq<Member>)
    ensures Keys(DropSensitive(ms)) == KeptKeys(Keys(ms))
  {
    if ms != [] {
      DropSensitiveKeys(ms[1..]);
      assert Keys(ms)[1..] == Keys(ms[1..]);
      if ms[0].key !in SensitiveKeys {
        assert Keys([ms[0]] + DropSensitive(ms[1..])) == [ms[0].key] + Keys(DropSensitive(ms[1..]));
      }
    }
  }

  /** The non-sensitive keys of a key list, in order. */
  function KeptKeys(ks: seq<string>): (r: seq<string>)
    ensures forall k :: k in r <==> k in ks && k !in SensitiveKeys
  {
    if ks == [] then []
    else if ks[0] in SensitiveKeys then KeptKeys(ks[1..])
    else [ks[0]] + KeptKeys(ks[1..])
  }

  /** The key order of a filtered dict. */
  lemma RemoveKeysOrder(ms: seq<Member>)
    ensures Keys(RemoveKeys(Obj(ms)).members) == KeptKeys(Keys(ms))
  {
    var filtered := seq(|ms|, i requires 0 <= i < |ms| => Member(ms[i].key, RemoveKeys(ms[i].value)));
    DropSensitiveKeys(filtered);
    assert Keys(filtered) == Keys(ms);
  }

  /** Dropping changes nothing when no key is sensitive. */
  lemma {:induction false} DropNothing(ms: seq<Member>)
    requires forall i :: 0 <= i < |ms| ==> ms[i].key !in SensitiveKeys
    ensures DropSensitive(ms) == ms
  {
    if ms != [] {
      DropNothing(ms[1..]);
      assert [ms[0]] + ms[1..] == ms;
    }
  }

  /** The values the filter leaves unchanged are exactly those with no
      sensitive key at any depth. */
  lemma {:induction false} FixedIffClean(v: Value)
    ensures RemoveKeys(v) == v <==> NoSensitive(v)
    decreases v
  {
    RemoveKeysClean(v);
    if NoSensitive(v) {
      match v
      case Obj(ms) =>
        var filtered := seq(|ms|, i requires 0 <= i < |ms| => Member(ms[i].key, RemoveKeys(ms[i].value)));
        forall i | 0 <= i < |ms|
          ensures filtered[i] == ms[i]
        {
          FixedIffClean(ms[i].value);
        }
        assert filtered == ms;
        DropNothing(ms);
      case Arr(xs) =>
        forall i | 0 <= i < |xs|
          ensures RemoveKeys(xs[i]) == xs[i]
        {
          FixedIffClean(xs[i]);
        }
        assert RemoveKeys(v).items == xs;
      case _ =>
    }
  }

  /** Sanitising twice is sanitising once. */
  lemma Idempotent(v: Value)
    ensures RemoveKeys(RemoveKeys(v)) == RemoveKeys(v)
  {
    RemoveKeysClean(v);
    FixedIffClean(RemoveKeys(v));
  }

  /** A list keeps its length and order, each item filtered in turn. */
  lemma ListItems(xs: seq<Value>, i: int)
    requires 0 <= i < |xs|
    ensures RemoveKeys(Arr(xs)).items[i] == RemoveKeys(xs[i])
  {
  }

  /** A concrete payload: the personal data disappears, also inside a list
      of dicts, and the rest stays. */
  lemma Example()
    ensures SanitizePayload([
      Member("servidor", Obj([Member("nome_completo", Str("Ana")), Member("cpf", Str("12345678909"))])),
      Member("contatos", Arr([Obj([Member("email", Str("a@b")), Member("setor", Str("DI"))])]))])
      == [Member("servidor", Obj([Member("nome_completo", Str("Ana"))])),
          Member("contatos", Arr([Obj([Member("setor", Str("DI"))])]))]
  {
    ExampleKeys();
    var servidor := Obj([Member("nome_completo", Str("Ana")), Member("cpf", Str("12345678909"))]);
    var contato := Obj([Member("email", Str("a@b")), Member("setor", Str("DI"))]);
    var s := Obj([Member("nome_completo", Str("Ana"))]);
    var c := Arr([Obj([Member("setor", Str("DI"))])]);
    DropOne(Member("nome_completo", Str("Ana")), Member("cpf", Str("12345678909")));
    ListOfOne(contato);
    DropFirst(Member("email", Str("a@b")), Member("setor", Str("DI")));
    var payload := [Member("servidor", servidor), Member("contatos", Arr([contato]))];
    TwoKept(payload, s, c);
  }

  /** Which keys of the example are sensitive. */
  lemma ExampleKeys()
    ensures "cpf" in SensitiveKeys && "email" in SensitiveKeys
    ensures "servidor" !in SensitiveKeys && "contatos" !in SensitiveKeys
    ensures "nome_completo" !in SensitiveKeys && "setor" !in SensitiveKeys
  {
    assert |"servidor"| == 8 && |"contatos"| == 8 && |"nome_completo"| == 13 && |"setor"| == 5;
    assert "servidor"[0] == 's' && "contatos"[0] == 'c' && "setor"[0] == 's';
  }

  /** A two-member dict with no sensitive key keeps both members, each
      filtered. */
  lemma TwoKept(payload: seq<Member>, a: Value, b: Value)
    requires |payload| == 2
    requires payload[0].key !in SensitiveKeys && payload[1].key !in SensitiveKeys
    requires RemoveKeys(payload[0].value) == a && RemoveKeys(payload[1].value) == b
    ensures RemoveKeys(Obj(payload)).members == [Member(payload[0].key, a), Member(payload[1].key, b)]
  {
    var filtered := seq(|payload|, i requires 0 <= i < |payload| => Member(payload[i].key, RemoveKeys(payload[i].value)));
    assert filtered == [Member(payload[0].key, a), Member(payload[1].key, b)];
    DropNothing(filtered);
  }

  /** A one-item list is the list of the filtered item. */
  lemma ListOfOne(x: Value)
    ensures RemoveKeys(Arr([x])) == Arr([RemoveKeys(x)])
  {
    assert RemoveKeys(Arr([x])).items == [RemoveKeys(x)];
  }

  /** A two-member dict of scalars whose second key is sensitive. */
  lemma DropOne(a: Member, b: Member)
    requires a.key !in SensitiveKeys && b.key in SensitiveKeys
    requires !a.value.Obj? && !a.value.Arr?
    ensures RemoveKeys(Obj([a, b])) == Obj([a])
  {
    var ms := [a, b];
    var filtered := seq(|ms|, i requires 0 <= i < |ms| => Member(ms[i].key, RemoveKeys(ms[i].value)));
    assert filtered[0] == a;
    assert filtered[1].key == b.key;
    assert filtered[1..][1..] == [];
    assert DropSensitive(filtered[1..]) == [];
  }

  /** A two-member dict of scalars whose first key is sensitive. */
  lemma DropFirst(a: Member, b: Member)
    requires a.key in SensitiveKeys && b.key !in SensitiveKeys
    requires !b.value.Obj? && !b.value.Arr?
    ensures RemoveKeys(Obj([a, b])) == Obj([b])
  {
    var ms := [a, b];
    var filtered := seq(|ms|, i requires 0 <= i < |ms| => Member(ms[i].key, RemoveKeys(ms[i].value)));
    assert filtered[1] == b;
    assert filtered[0].key == a.key;
    assert filtered[1..] == [b];
    assert DropSensitive([b]) == [b] + DropSensitive([b][1..]);
  }
}

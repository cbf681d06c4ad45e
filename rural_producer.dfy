/** A rural producer, identified by a document that is checked when the producer is built. */
module RuralProducerEntity {
  import opened Wrappers
  import opened Errors
  import opened RuralPropertyEntity

  const InvalidDocumentMessage: string := "Documento inválido: deve ser um CPF ou CNPJ válido."

  /** The number of UTF-16 code units that encode `c`: two outside the Basic Multilingual Plane. */
  function CodeUnits(c: char): nat {
    if c < '\U{10000}' then 1 else 2
  }

  /**
   * JavaScript's `length` of a string: its number of UTF-16 code units. It lies between the
   * number of characters and twice that number.
   */
  function Utf16Length(s: string): (n: nat)
    ensures |s| <= n <= 2 * |s|
  {
    if s == [] then 0 else Utf16Length(s[..|s| - 1]) + CodeUnits(s[|s| - 1])
  }

  /** A string of Basic Multilingual Plane characters has one code unit per character. */
  lemma {:induction false} Utf16LengthBmp(s: string)
    ensures (forall i :: 0 <= i < |s| ==> s[i] < '\U{10000}') ==> Utf16Length(s) == |s|
  {
    if s != [] {
      Utf16LengthBmp(s[..|s| - 1]);
    }
  }

  /** A string of characters outside the Basic Multilingual Plane has two code units per character. */
  lemma {:induction false} Utf16LengthAstral(s: string)
    requires forall i :: 0 <= i < |s| ==> s[i] >= '\U{10000}'
    ensures Utf16Length(s) == 2 * |s|
  {
    if s != [] {
      Utf16LengthAstral(s[..|s| - 1]);
    }
  }

  /**
   * The simplified individual taxpayer check: a JavaScript length of exactly 11, which for a
   * string of Basic Multilingual Plane characters is exactly 11 characters.
   */
  predicate IsValidCPF(cpf: string): (ok: bool)
    ensures (forall i :: 0 <= i < |cpf| ==> cpf[i] < '\U{10000}') ==> (ok <==> |cpf| == 11)
  {
    Utf16LengthBmp(cpf);
    Utf16Length(cpf) == 11
  }

  /**
   * The simplified company taxpayer check: a JavaScript length of exactly 14, which for a
   * string of Basic Multilingual Plane characters is exactly 14 characters.
   */
  predicate IsValidCNPJ(cnpj: string): (ok: bool)
    ensures (forall i :: 0 <= i < |cnpj| ==> cnpj[i] < '\U{10000}') ==> (ok <==> |cnpj| == 14)
  {
    Utf16LengthBmp(cnpj);
    Utf16Length(cnpj) == 14
  }

  /** A document is accepted when it passes either check. */
  predicate IsValidDocument(document: string) {
    IsValidCPF(document) || IsValidCNPJ(document)
  }

  /** `validateDocument`: passes exactly for JavaScript lengths 11 and 14, otherwise fails with the fixed message. */
  function ValidateDocument(document: string): (o: Outcome<Error>)
    ensures o.Pass? <==> Utf16Length(document) == 11 || Utf16Length(document) == 14
    ensures o.Fail? ==> o.error == Error(Plain, InvalidDocumentMessage)
  {
    if !IsValidCPF(document) && !IsValidCNPJ(document) then Fail(Error(Plain, InvalidDocumentMessage))
    else Pass
  }

  /**
   * Seven mathematical digits from outside the Basic Multilingual Plane have a JavaScript length
   * of 14, so they pass as a company document although they are only seven characters.
   */
  lemma AstralDigitsPassAsCNPJ()
    ensures var s := "\U{1D7CF}\U{1D7D0}\U{1D7D1}\U{1D7D2}\U{1D7D3}\U{1D7D4}\U{1D7D5}";
            |s| == 7 && Utf16Length(s) == 14 && ValidateDocument(s).Pass?
  {
    Utf16LengthAstral("\U{1D7CF}\U{1D7D0}\U{1D7D1}\U{1D7D2}\U{1D7D3}\U{1D7D4}\U{1D7D5}");
  }

  /**
   * The length range the request payloads declare for a document (11 to 14), measured here in
   * the same units as the entity's checks. It is checked before the entity's own rule and is
   * wider than it.
   */
  predicate PayloadLengthAccepts(document: string) {
    11 <= Utf16Length(document) <= 14
  }

  /**
   * Every document the entity accepts passes the payload length rule, and the payload rule lets
   * exactly the lengths 12 and 13 through to a rejection by the entity.
   */
  lemma PayloadRuleIsWider(document: string)
    ensures IsValidDocument(document) ==> PayloadLengthAccepts(document)
    ensures PayloadLengthAccepts(document) && !IsValidDocument(document) <==>
      Utf16Length(document) == 12 || Utf16Length(document) == 13
  {
  }

  /**
   * A rural producer. `id` never changes; `name`, `document` and `properties` are public and
   * mutable. The document is validated only by the constructor: assigning `document` later is
   * not checked again, so there is no object invariant tying it to `IsValidDocument`.
   */
  class RuralProducer {
    const id: string
    var name: string
    var document: string
    var properties: seq<RuralProperty>

    /** The constructor on its non-throwing path; `NewRuralProducer` models the throw. */
    constructor (id: string, name: string, document: string, properties: seq<RuralProperty> := [])
      requires IsValidDocument(document)
      ensures this.id == id && this.name == name && this.document == document
      ensures this.properties == properties
    {
      this.id := id;
      this.name := name;
      this.document := document;
      this.properties := properties;
    }

    /** Appends a property at the end of the list; no other field changes. */
    method AddProperty(property: RuralProperty)
      modifies this`properties
      ensures properties == old(properties) + [property]
      ensures |properties| == |old(properties)| + 1
      ensures properties[..|old(properties)|] == old(properties)
      ensures name == old(name) && document == old(document)
    {
      properties := properties + [property];
    }
  }

  /**
   * `new RuralProducer(id, name, document, properties)`: throws the fixed invalid-document error
   * unless the document's JavaScript length is 11 or 14; otherwise a new producer holding the given values.
   * Omitted properties default to the empty list.
   */
  method NewRuralProducer(id: string, name: string, document: string, properties: seq<RuralProperty> := [])
    returns (r: Result<RuralProducer, Error>)
    ensures r.Success? <==> Utf16Length(document) == 11 || Utf16Length(document) == 14
    ensures r.Failure? ==> r.error == Error(Plain, InvalidDocumentMessage)
    ensures r.Success? ==> fresh(r.value)
    ensures r.Success? ==> r.value.id == id && r.value.name == name && r.value.document == document
    ensures r.Success? ==> r.value.properties == properties
  {
    var check := ValidateDocument(document);
    if check.Fail? {
      return Failure(check.error);
    }
    var producer := new RuralProducer(id, name, document, properties);
    return Success(producer);
  }
}

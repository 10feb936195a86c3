/**
 * The vocabulary of the knowledge graph built in src/ontology/health_ontology.py:
 * URIs built by appending a local name to a namespace, literals, triples, and
 * the decimal rendering of `idx + 1` used in f-strings.
 */
module GraphTerms {
  import opened Wrappers

  /** `Namespace("https://w3id.org/HealthIoT#")`. */
  const EX: string := "https://w3id.org/HealthIoT#"
  /** `Namespace("https://saref.etsi.org/core#")`. */
  const SAREF: string := "https://saref.etsi.org/core#"
  /** rdflib's `RDF` namespace. */
  const RDF: string := "http://www.w3.org/1999/02/22-rdf-syntax-ns#"
  /** rdflib's `OWL` namespace. */
  const OWL: string := "http://www.w3.org/2002/07/owl#"

  /** The XSD datatype a literal is tagged with; `Untyped` is `Literal(v)` without one. */
  datatype XsdType = XsdInteger | XsdString | XsdFloat | XsdDateTimeStamp | Untyped

  /** The Python value inside a literal: a number (NaN is `None`) or a string. */
  datatype LitValue = Number(x: Option<real>) | Text(s: string)

  /** A graph node: a URI reference or a literal. */
  datatype Term = Uri(iri: string) | Literal(value: LitValue, xsd: XsdType)

  /** A statement of the graph: subject `s`, predicate `p`, object `o`. */
  datatype Triple = Triple(s: Term, p: Term, o: Term)

  /** `EX[name]`. */
  function Ex(name: string): (t: Term)
    ensures t.Uri? && |t.iri| == |EX| + |name|
  {
    Uri(EX + name)
  }

  /** `SAREF[name]`. */
  function Saref(name: string): Term
  {
    Uri(SAREF + name)
  }

  /** `RDF.type`. */
  const RdfType: Term := Uri(RDF + "type")
  /** `OWL.AnnotationProperty`. */
  const AnnotationProperty: Term := Uri(OWL + "AnnotationProperty")

  /** Two `EX` names give the same URI only when they are the same name. */
  lemma ExInjective(n1: string, n2: string)
    ensures Ex(n1) == Ex(n2) <==> n1 == n2
  {
    assert n1 == (EX + n1)[|EX|..];
    assert n2 == (EX + n2)[|EX|..];
  }

  /** No `EX` name is `RDF.type`: the two namespaces differ. */
  lemma ExIsNotRdfType(n: string)
    ensures Ex(n) != RdfType
  {
    assert Ex(n).iri[4] == 's';
    assert RdfType.iri[4] == ':';
  }

  // ---------------------------------------------------------------------------
  // str(idx + 1)
  // ---------------------------------------------------------------------------

  /** The character of a decimal digit. */
  function DigitChar(d: nat): (c: char)
    requires d < 10
    ensures '0' <= c <= '9' && c as int - '0' as int == d
  {
    ('0' as int + d) as char
  }

  /** `str(n)` for a non-negative integer: its decimal digits, most significant first. */
  function NatToString(n: nat): (s: string)
    ensures 1 <= |s|
    ensures n < 10 <==> |s| == 1
    ensures forall i :: 0 <= i < |s| ==> '0' <= s[i] <= '9'
    decreases n
  {
    if n < 10 then [DigitChar(n)] else NatToString(n / 10) + [DigitChar(n % 10)]
  }

  /** Distinct numbers render as distinct strings. */
  lemma {:induction false} NatToStringInjective(m: nat, n: nat)
    requires NatToString(m) == NatToString(n)
    ensures m == n
    decreases m
  {
    var s := NatToString(m);
    if m < 10 {
      assert DigitChar(m) == s[0] == DigitChar(n);
    } else {
      assert n >= 10;
      var k := |s| - 1;
      assert NatToString(m / 10) == s[..k] == NatToString(n / 10);
      NatToStringInjective(m / 10, n / 10);
      assert DigitChar(m % 10) == s[k] == DigitChar(n % 10);
    }
  }

  /** `EX[f"{name}{idx + 1}"]`: a node numbered after the row index. */
  function Numbered(name: string, idx: nat): Term
  {
    Ex(name + NatToString(idx + 1))
  }

  /** Nodes numbered after different rows are different, for the same name. */
  lemma NumberedInjective(name: string, i: nat, j: nat)
    requires Numbered(name, i) == Numbered(name, j)
    ensures i == j
  {
    ExInjective(name + NatToString(i + 1), name + NatToString(j + 1));
    assert NatToString(i + 1) == (name + NatToString(i + 1))[|name|..];
    assert NatToString(j + 1) == (name + NatToString(j + 1))[|name|..];
    NatToStringInjective(i + 1, j + 1);
  }
}

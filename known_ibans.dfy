/** The IBANs that the extension's test suite checks, proved against the
    specification of `ibanIsValid` (extension/tests/logic.test.js). Each
    rotated IBAN is cut into pieces of at most six characters whose check
    values are computed separately and then joined. */
module KnownIbans {
  import opened Text
  import opened Logic

  /** The check value of four concatenated pieces from their values and
      scales. */
  lemma CheckValueJoin4(a: string, b: string, c: string, d: string,
                        va: nat, vb: nat, vc: nat, vd: nat, sb: nat, sc: nat, sd: nat)
    requires CheckValue(a, |a|) == va
    requires CheckValue(b, |b|) == vb && Scale(b, |b|) == sb
    requires CheckValue(c, |c|) == vc && Scale(c, |c|) == sc
    requires CheckValue(d, |d|) == vd && Scale(d, |d|) == sd
    ensures CheckValue(a + b + c + d, |a + b + c + d|) == ((va * sb + vb) * sc + vc) * sd + vd
  {
    CheckValueJoin(a, b, va, vb, sb);
    CheckValueJoin(a + b, c, va * sb + vb, vc, sc);
    CheckValueJoin(a + b + c, d, (va * sb + vb) * sc + vc, vd, sd);
  }

  /** The same for five pieces. */
  lemma CheckValueJoin5(a: string, b: string, c: string, d: string, e: string,
                        va: nat, vb: nat, vc: nat, vd: nat, ve: nat, sb: nat, sc: nat, sd: nat, se: nat)
    requires CheckValue(a, |a|) == va
    requires CheckValue(b, |b|) == vb && Scale(b, |b|) == sb
    requires CheckValue(c, |c|) == vc && Scale(c, |c|) == sc
    requires CheckValue(d, |d|) == vd && Scale(d, |d|) == sd
    requires CheckValue(e, |e|) == ve && Scale(e, |e|) == se
    ensures CheckValue(a + b + c + d + e, |a + b + c + d + e|)
            == (((va * sb + vb) * sc + vc) * sd + vd) * se + ve
  {
    CheckValueJoin4(a, b, c, d, va, vb, vc, vd, sb, sc, sd);
    CheckValueJoin(a + b + c + d, e, ((va * sb + vb) * sc + vc) * sd + vd, ve, se);
  }

  lemma Piece370400()
    ensures CheckValue("370400", 6) == 370400
  {
  }

  lemma Piece440532()
    ensures CheckValue("440532", 6) == 440532 && Scale("440532", 6) == 1000000
  {
  }

  lemma Piece013000()
    ensures CheckValue("013000", 6) == 13000 && Scale("013000", 6) == 1000000
  {
  }

  lemma PieceDE89()
    ensures CheckValue("DE89", 4) == 131489 && Scale("DE89", 4) == 1000000
  {
  }

  lemma PieceWEST12()
    ensures CheckValue("WEST12", 6) == 3214282912
  {
  }

  lemma Piece345698()
    ensures CheckValue("345698", 6) == 345698 && Scale("345698", 6) == 1000000
  {
  }

  lemma Piece765432()
    ensures CheckValue("765432", 6) == 765432 && Scale("765432", 6) == 1000000
  {
  }

  lemma PieceGB82()
    ensures CheckValue("GB82", 4) == 161182 && Scale("GB82", 4) == 1000000
  {
  }

  lemma Piece300060()
    ensures CheckValue("300060", 6) == 300060
  {
  }

  lemma Piece000112()
    ensures CheckValue("000112", 6) == 112 && Scale("000112", 6) == 1000000
  {
  }

  lemma Piece345678()
    ensures CheckValue("345678", 6) == 345678 && Scale("345678", 6) == 1000000
  {
  }

  lemma Piece90189F()
    ensures CheckValue("90189F", 6) == 9018915 && Scale("90189F", 6) == 10000000
  {
  }

  lemma PieceR76()
    ensures CheckValue("R76", 3) == 2776 && Scale("R76", 3) == 10000
  {
  }

  lemma Piece013001()
    ensures CheckValue("013001", 6) == 13001 && Scale("013001", 6) == 1000000
  {
  }

  lemma AlnumDeValid(s: string)
    requires s == "DE89370400440532013000"
    ensures forall i :: 0 <= i < |s| ==> IsAlnumUpper(s[i])
  {
  }

  lemma ShapeDeValid(s: string)
    requires s == "DE89370400440532013000"
    requires forall i :: 0 <= i < |s| ==> IsAlnumUpper(s[i])
    ensures IbanShape(s)
  {
  }

  lemma RotateDeValid(s: string)
    requires s == "DE89370400440532013000"
    ensures Rotate(s) == "370400440532013000DE89"
  {
  }

  lemma SplitDeValid()
    ensures "370400440532013000DE89" == "370400" + "440532" + "013000" + "DE89"
  {
  }

  lemma CheckValueDeValid()
    ensures CheckValue("370400" + "440532" + "013000" + "DE89", 22) % 97 == 1
  {
    Piece370400();
    Piece440532();
    Piece013000();
    PieceDE89();
    CheckValueJoin4("370400", "440532", "013000", "DE89", 370400, 440532, 13000, 131489, 1000000, 1000000, 1000000);
  }

  /** The German IBAN of the test suite passes. */
  lemma IbanDeValid(s: string)
    requires s == "DE89370400440532013000"
    ensures IbanValid(s)
  {
    AlnumDeValid(s);
    ShapeDeValid(s);
    RotateDeValid(s);
    SplitDeValid();
    CheckValueDeValid();
    IbanValidOfNormal(s);
  }

  lemma AlnumGbValid(s: string)
    requires s == "GB82WEST12345698765432"
    ensures forall i :: 0 <= i < |s| ==> IsAlnumUpper(s[i])
  {
  }

  lemma ShapeGbValid(s: string)
    requires s == "GB82WEST12345698765432"
    requires forall i :: 0 <= i < |s| ==> IsAlnumUpper(s[i])
    ensures IbanShape(s)
  {
  }

  lemma RotateGbValid(s: string)
    requires s == "GB82WEST12345698765432"
    ensures Rotate(s) == "WEST12345698765432GB82"
  {
  }

  lemma SplitGbValid()
    ensures "WEST12345698765432GB82" == "WEST12" + "345698" + "765432" + "GB82"
  {
  }

  lemma CheckValueGbValid()
    ensures CheckValue("WEST12" + "345698" + "765432" + "GB82", 22) % 97 == 1
  {
    PieceWEST12();
    Piece345698();
    Piece765432();
    PieceGB82();
    CheckValueJoin4("WEST12", "345698", "765432", "GB82", 3214282912, 345698, 765432, 161182, 1000000, 1000000, 1000000);
  }

  /** The British IBAN of the test suite passes. */
  lemma IbanGbValid(s: string)
    requires s == "GB82WEST12345698765432"
    ensures IbanValid(s)
  {
    AlnumGbValid(s);
    ShapeGbValid(s);
    RotateGbValid(s);
    SplitGbValid();
    CheckValueGbValid();
    IbanValidOfNormal(s);
  }

  lemma AlnumFrValid(s: string)
    requires s == "FR7630006000011234567890189"
    ensures forall i :: 0 <= i < |s| ==> IsAlnumUpper(s[i])
  {
  }

  lemma ShapeFrValid(s: string)
    requires s == "FR7630006000011234567890189"
    requires forall i :: 0 <= i < |s| ==> IsAlnumUpper(s[i])
    ensures IbanShape(s)
  {
  }

  lemma RotateFrValid(s: string)
    requires s == "FR7630006000011234567890189"
    ensures Rotate(s) == "30006000011234567890189FR76"
  {
  }

  lemma SplitFrValid()
    ensures "30006000011234567890189FR76" == "300060" + "000112" + "345678" + "90189F" + "R76"
  {
  }

  lemma CheckValueFrValid()
    ensures CheckValue("300060" + "000112" + "345678" + "90189F" + "R76", 27) % 97 == 1
  {
    Piece300060();
    Piece000112();
    Piece345678();
    Piece90189F();
    PieceR76();
    CheckValueJoin5("300060", "000112", "345678", "90189F", "R76", 300060, 112, 345678, 9018915, 2776, 1000000, 1000000, 10000000, 10000);
  }

  /** The French IBAN of the test suite passes. */
  lemma IbanFrValid(s: string)
    requires s == "FR7630006000011234567890189"
    ensures IbanValid(s)
  {
    AlnumFrValid(s);
    ShapeFrValid(s);
    RotateFrValid(s);
    SplitFrValid();
    CheckValueFrValid();
    IbanValidOfNormal(s);
  }

  lemma AlnumDeAltered(s: string)
    requires s == "DE89370400440532013001"
    ensures forall i :: 0 <= i < |s| ==> IsAlnumUpper(s[i])
  {
  }

  lemma ShapeDeAltered(s: string)
    requires s == "DE89370400440532013001"
    requires forall i :: 0 <= i < |s| ==> IsAlnumUpper(s[i])
    ensures IbanShape(s)
  {
  }

  lemma RotateDeAltered(s: string)
    requires s == "DE89370400440532013001"
    ensures Rotate(s) == "370400440532013001DE89"
  {
  }

  lemma SplitDeAltered()
    ensures "370400440532013001DE89" == "370400" + "440532" + "013001" + "DE89"
  {
  }

  lemma CheckValueDeAltered()
    ensures CheckValue("370400" + "440532" + "013001" + "DE89", 22) % 97 == 28
  {
    Piece370400();
    Piece440532();
    Piece013001();
    PieceDE89();
    CheckValueJoin4("370400", "440532", "013001", "DE89", 370400, 440532, 13001, 131489, 1000000, 1000000, 1000000);
  }

  /** The German IBAN with its last digit changed fails. */
  lemma IbanDeAltered(s: string)
    requires s == "DE89370400440532013001"
    ensures !IbanValid(s)
  {
    AlnumDeAltered(s);
    ShapeDeAltered(s);
    RotateDeAltered(s);
    SplitDeAltered();
    CheckValueDeAltered();
    IbanValidOfNormal(s);
  }
}

/**
 * The instance records of data_gen/data_generator.py: a piece has a width and
 * a demand; an instance is the ordered list of pieces and the roll width W.
 */
module DataGen {

  datatype Piece = Piece(w: real, d: int)

  datatype DataCs = DataCs(pieces: seq<Piece>, W: real)

  /** Positive roll width and positive piece widths, as the instances are drawn. */
  predicate WellFormed(data: DataCs)
  {
    && data.W > 0.0
    && forall i :: 0 <= i < |data.pieces| ==> data.pieces[i].w > 0.0
  }

  /** The widths of the first `n` pieces. */
  function Widths(data: DataCs, n: nat): seq<real>
    requires n <= |data.pieces|
  {
    seq(n, i requires 0 <= i < n => data.pieces[i].w)
  }

  /** The demands of the first `n` pieces. */
  function Demands(data: DataCs, n: nat): seq<int>
    requires n <= |data.pieces|
  {
    seq(n, i requires 0 <= i < n => data.pieces[i].d)
  }
}

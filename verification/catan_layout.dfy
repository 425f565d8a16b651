/**
 * The corner-adjacency table catan_graph of model/board.py, by corner index. Corner
 * i is named by Board.CatanVertexName(i): "A".."Z", then "A2".."Z2", then "A3", "B3".
 */
module CatanLayout {
  const CatanVertexCount: int := 54

  /**
   * The adjacency of catan_graph, by corner index (see Board.CatanVertexName); every
   * list keeps the neighbour order of the source table. The rows are kept in blocks
   * of nine corners.
   */
  function CatanAdjacency(i: int): seq<int>
  {
    if i < 27 then
      (if i < 9 then CatanAdjacencyBlock0(i) else if i < 18 then CatanAdjacencyBlock1(i) else CatanAdjacencyBlock2(i))
    else
      (if i < 36 then CatanAdjacencyBlock3(i) else if i < 45 then CatanAdjacencyBlock4(i) else CatanAdjacencyBlock5(i))
  }

  function CatanAdjacencyBlock0(i: int): seq<int>
  {
    match i
      case 0 => [3, 4]         // A: D, E
      case 1 => [4, 5]         // B: E, F
      case 2 => [5, 6]         // C: F, G
      case 3 => [0, 7]         // D: A, H
      case 4 => [0, 9, 1]      // E: A, J, B
      case 5 => [2, 1, 11]     // F: C, B, L
      case 6 => [13, 2]        // G: N, C
      case 7 => [3, 14, 8]     // H: D, O, I
      case 8 => [7, 19, 9]     // I: H, T, J
      case _ => []
  }

  function CatanAdjacencyBlock1(i: int): seq<int>
  {
    match i
      case 9 => [4, 8, 10]     // J: E, I, K
      case 10 => [9, 11, 21]   // K: J, L, V
      case 11 => [5, 10, 12]   // L: F, K, M
      case 12 => [11, 13, 23]  // M: L, N, X
      case 13 => [6, 12, 15]   // N: G, M, P
      case 14 => [7, 17]       // O: H, R
      case 15 => [13, 25]      // P: N, Z
      case 16 => [17, 27]      // Q: R, B2
      case 17 => [16, 18, 14]  // R: Q, S, O
      case _ => []
  }

  function CatanAdjacencyBlock2(i: int): seq<int>
  {
    match i
      case 18 => [17, 29, 19]  // S: R, D2, T
      case 19 => [8, 18, 20]   // T: I, S, U
      case 20 => [19, 31, 21]  // U: T, F2, V
      case 21 => [10, 20, 22]  // V: K, U, W
      case 22 => [21, 23, 33]  // W: V, X, H2
      case 23 => [12, 22, 24]  // X: M, W, Y
      case 24 => [25, 35, 23]  // Y: Z, J2, X
      case 25 => [15, 24, 26]  // Z: P, Y, A2
      case 26 => [25, 37]      // A2: Z, L2
      case _ => []
  }

  function CatanAdjacencyBlock3(i: int): seq<int>
  {
    match i
      case 27 => [16, 28]      // B2: Q, C2
      case 28 => [27, 47, 29]  // C2: B2, V2, D2
      case 29 => [18, 28, 30]  // D2: S, C2, E2
      case 30 => [29, 39, 31]  // E2: D2, N2, F2
      case 31 => [20, 30, 32]  // F2: U, E2, G2
      case 32 => [31, 41, 33]  // G2: F2, P2, H2
      case 33 => [22, 32, 34]  // H2: W, G2, I2
      case 34 => [33, 43, 35]  // I2: H2, R2, J2
      case 35 => [34, 24, 36]  // J2: I2, Y, K2
      case _ => []
  }

  function CatanAdjacencyBlock4(i: int): seq<int>
  {
    match i
      case 36 => [35, 45, 37]  // K2: J2, T2, L2
      case 37 => [26, 36]      // L2: A2, K2
      case 38 => [47, 46, 39]  // M2: V2, U2, N2
      case 39 => [38, 30, 40]  // N2: M2, E2, O2
      case 40 => [39, 49, 41]  // O2: N2, X2, P2
      case 41 => [40, 32, 42]  // P2: O2, G2, Q2
      case 42 => [41, 51, 43]  // Q2: P2, Z2, R2
      case 43 => [42, 34, 44]  // R2: Q2, I2, S2
      case 44 => [43, 53, 45]  // S2: R2, B3, T2
      case _ => []
  }

  function CatanAdjacencyBlock5(i: int): seq<int>
  {
    match i
      case 45 => [36, 44]      // T2: K2, S2
      case 46 => [38, 48]      // U2: M2, W2
      case 47 => [28, 38]      // V2: C2, M2
      case 48 => [46, 49]      // W2: U2, X2
      case 49 => [48, 40, 50]  // X2: W2, O2, Y2
      case 50 => [49, 51]      // Y2: X2, Z2
      case 51 => [50, 42, 52]  // Z2: Y2, Q2, A3
      case 52 => [51, 53]      // A3: Z2, B3
      case 53 => [52, 44]      // B3: A3, S2
      case _ => []
  }

  lemma CatanAdjacencyInRange(i: int)
    requires 0 <= i < CatanVertexCount
    ensures forall k :: 0 <= k < |CatanAdjacency(i)| ==> 0 <= CatanAdjacency(i)[k] < CatanVertexCount
  {
  }

  lemma CatanSymmetricFrom0(i: int)
    requires 0 <= i < 6
    ensures forall k :: 0 <= k < |CatanAdjacency(i)| ==> i in CatanAdjacency(CatanAdjacency(i)[k])
  {
    if i == 0 { assert 0 in CatanAdjacency(3) && 0 in CatanAdjacency(4); }
    else if i == 1 { assert 1 in CatanAdjacency(4) && 1 in CatanAdjacency(5); }
    else if i == 2 { assert 2 in CatanAdjacency(5) && 2 in CatanAdjacency(6); }
    else if i == 3 { assert 3 in CatanAdjacency(0) && 3 in CatanAdjacency(7); }
    else if i == 4 { assert 4 in CatanAdjacency(0) && 4 in CatanAdjacency(9) && 4 in CatanAdjacency(1); }
    else if i == 5 { assert 5 in CatanAdjacency(2) && 5 in CatanAdjacency(1) && 5 in CatanAdjacency(11); }
  }

  lemma CatanSymmetricFrom6(i: int)
    requires 6 <= i < 12
    ensures forall k :: 0 <= k < |CatanAdjacency(i)| ==> i in CatanAdjacency(CatanAdjacency(i)[k])
  {
    if i == 6 { assert 6 in CatanAdjacency(13) && 6 in CatanAdjacency(2); }
    else if i == 7 { assert 7 in CatanAdjacency(3) && 7 in CatanAdjacency(14) && 7 in CatanAdjacency(8); }
    else if i == 8 { assert 8 in CatanAdjacency(7) && 8 in CatanAdjacency(19) && 8 in CatanAdjacency(9); }
    else if i == 9 { assert 9 in CatanAdjacency(4) && 9 in CatanAdjacency(8) && 9 in CatanAdjacency(10); }
    else if i == 10 { assert 10 in CatanAdjacency(9) && 10 in CatanAdjacency(11) && 10 in CatanAdjacency(21); }
    else if i == 11 { assert 11 in CatanAdjacency(5) && 11 in CatanAdjacency(10) && 11 in CatanAdjacency(12); }
  }

  lemma CatanSymmetricFrom12(i: int)
    requires 12 <= i < 18
    ensures forall k :: 0 <= k < |CatanAdjacency(i)| ==> i in CatanAdjacency(CatanAdjacency(i)[k])
  {
    if i == 12 { assert 12 in CatanAdjacency(11) && 12 in CatanAdjacency(13) && 12 in CatanAdjacency(23); }
    else if i == 13 { assert 13 in CatanAdjacency(6) && 13 in CatanAdjacency(12) && 13 in CatanAdjacency(15); }
    else if i == 14 { assert 14 in CatanAdjacency(7) && 14 in CatanAdjacency(17); }
    else if i == 15 { assert 15 in CatanAdjacency(13) && 15 in CatanAdjacency(25); }
    else if i == 16 { assert 16 in CatanAdjacency(17) && 16 in CatanAdjacency(27); }
    else if i == 17 { assert 17 in CatanAdjacency(16) && 17 in CatanAdjacency(18) && 17 in CatanAdjacency(14); }
  }

  lemma CatanSymmetricFrom18(i: int)
    requires 18 <= i < 24
    ensures forall k :: 0 <= k < |CatanAdjacency(i)| ==> i in CatanAdjacency(CatanAdjacency(i)[k])
  {
    if i == 18 { assert 18 in CatanAdjacency(17) && 18 in CatanAdjacency(29) && 18 in CatanAdjacency(19); }
    else if i == 19 { assert 19 in CatanAdjacency(8) && 19 in CatanAdjacency(18) && 19 in CatanAdjacency(20); }
    else if i == 20 { assert 20 in CatanAdjacency(19) && 20 in CatanAdjacency(31) && 20 in CatanAdjacency(21); }
    else if i == 21 { assert 21 in CatanAdjacency(10) && 21 in CatanAdjacency(20) && 21 in CatanAdjacency(22); }
    else if i == 22 { assert 22 in CatanAdjacency(21) && 22 in CatanAdjacency(23) && 22 in CatanAdjacency(33); }
    else if i == 23 { assert 23 in CatanAdjacency(12) && 23 in CatanAdjacency(22) && 23 in CatanAdjacency(24); }
  }

  lemma CatanSymmetricFrom24(i: int)
    requires 24 <= i < 30
    ensures forall k :: 0 <= k < |CatanAdjacency(i)| ==> i in CatanAdjacency(CatanAdjacency(i)[k])
  {
    if i == 24 { assert 24 in CatanAdjacency(25) && 24 in CatanAdjacency(35) && 24 in CatanAdjacency(23); }
    else if i == 25 { assert 25 in CatanAdjacency(15) && 25 in CatanAdjacency(24) && 25 in CatanAdjacency(26); }
    else if i == 26 { assert 26 in CatanAdjacency(25) && 26 in CatanAdjacency(37); }
    else if i == 27 { assert 27 in CatanAdjacency(16) && 27 in CatanAdjacency(28); }
    else if i == 28 { assert 28 in CatanAdjacency(27) && 28 in CatanAdjacency(47) && 28 in CatanAdjacency(29); }
    else if i == 29 { assert 29 in CatanAdjacency(18) && 29 in CatanAdjacency(28) && 29 in CatanAdjacency(30); }
  }

  lemma CatanSymmetricFrom30(i: int)
    requires 30 <= i < 36
    ensures forall k :: 0 <= k < |CatanAdjacency(i)| ==> i in CatanAdjacency(CatanAdjacency(i)[k])
  {
    if i == 30 { assert 30 in CatanAdjacency(29) && 30 in CatanAdjacency(39) && 30 in CatanAdjacency(31); }
    else if i == 31 { assert 31 in CatanAdjacency(20) && 31 in CatanAdjacency(30) && 31 in CatanAdjacency(32); }
    else if i == 32 { assert 32 in CatanAdjacency(31) && 32 in CatanAdjacency(41) && 32 in CatanAdjacency(33); }
    else if i == 33 { assert 33 in CatanAdjacency(22) && 33 in CatanAdjacency(32) && 33 in CatanAdjacency(34); }
    else if i == 34 { assert 34 in CatanAdjacency(33) && 34 in CatanAdjacency(43) && 34 in CatanAdjacency(35); }
    else if i == 35 { assert 35 in CatanAdjacency(34) && 35 in CatanAdjacency(24) && 35 in CatanAdjacency(36); }
  }

  lemma CatanSymmetricFrom36(i: int)
    requires 36 <= i < 42
    ensures forall k :: 0 <= k < |CatanAdjacency(i)| ==> i in CatanAdjacency(CatanAdjacency(i)[k])
  {
    if i == 36 { assert 36 in CatanAdjacency(35) && 36 in CatanAdjacency(45) && 36 in CatanAdjacency(37); }
    else if i == 37 { assert 37 in CatanAdjacency(26) && 37 in CatanAdjacency(36); }
    else if i == 38 { assert 38 in CatanAdjacency(47) && 38 in CatanAdjacency(46) && 38 in CatanAdjacency(39); }
    else if i == 39 { assert 39 in CatanAdjacency(38) && 39 in CatanAdjacency(30) && 39 in CatanAdjacency(40); }
    else if i == 40 { assert 40 in CatanAdjacency(39) && 40 in CatanAdjacency(49) && 40 in CatanAdjacency(41); }
    else if i == 41 { assert 41 in CatanAdjacency(40) && 41 in CatanAdjacency(32) && 41 in CatanAdjacency(42); }
  }

  lemma CatanSymmetricFrom42(i: int)
    requires 42 <= i < 48
    ensures forall k :: 0 <= k < |CatanAdjacency(i)| ==> i in CatanAdjacency(CatanAdjacency(i)[k])
  {
    if i == 42 { assert 42 in CatanAdjacency(41) && 42 in CatanAdjacency(51) && 42 in CatanAdjacency(43); }
    else if i == 43 { assert 43 in CatanAdjacency(42) && 43 in CatanAdjacency(34) && 43 in CatanAdjacency(44); }
    else if i == 44 { assert 44 in CatanAdjacency(43) && 44 in CatanAdjacency(53) && 44 in CatanAdjacency(45); }
    else if i == 45 { assert 45 in CatanAdjacency(36) && 45 in CatanAdjacency(44); }
    else if i == 46 { assert 46 in CatanAdjacency(38) && 46 in CatanAdjacency(48); }
    else if i == 47 { assert 47 in CatanAdjacency(28) && 47 in CatanAdjacency(38); }
  }

  lemma CatanSymmetricFrom48(i: int)
    requires 48 <= i < 54
    ensures forall k :: 0 <= k < |CatanAdjacency(i)| ==> i in CatanAdjacency(CatanAdjacency(i)[k])
  {
    if i == 48 { assert 48 in CatanAdjacency(46) && 48 in CatanAdjacency(49); }
    else if i == 49 { assert 49 in CatanAdjacency(48) && 49 in CatanAdjacency(40) && 49 in CatanAdjacency(50); }
    else if i == 50 { assert 50 in CatanAdjacency(49) && 50 in CatanAdjacency(51); }
    else if i == 51 { assert 51 in CatanAdjacency(50) && 51 in CatanAdjacency(42) && 51 in CatanAdjacency(52); }
    else if i == 52 { assert 52 in CatanAdjacency(51) && 52 in CatanAdjacency(53); }
    else if i == 53 { assert 53 in CatanAdjacency(52) && 53 in CatanAdjacency(44); }
  }

  /** The index-level table is symmetric. */
  lemma CatanAdjacencySymmetric(i: nat, j: nat)
    requires i < CatanVertexCount && j in CatanAdjacency(i)
    ensures i in CatanAdjacency(j)
  {
    if i < 6 { CatanSymmetricFrom0(i); }
    else if i < 12 { CatanSymmetricFrom6(i); }
    else if i < 18 { CatanSymmetricFrom12(i); }
    else if i < 24 { CatanSymmetricFrom18(i); }
    else if i < 30 { CatanSymmetricFrom24(i); }
    else if i < 36 { CatanSymmetricFrom30(i); }
    else if i < 42 { CatanSymmetricFrom36(i); }
    else if i < 48 { CatanSymmetricFrom42(i); }
    else { CatanSymmetricFrom48(i); }
  }

  /** Every corner has two or three neighbours, all distinct, and is never its own neighbour. */
  lemma CatanAdjacencyDegree(i: nat)
    requires i < CatanVertexCount
    ensures 2 <= |CatanAdjacency(i)| <= 3
    ensures i !in CatanAdjacency(i)
    ensures forall a, b :: 0 <= a < b < |CatanAdjacency(i)| ==> CatanAdjacency(i)[a] != CatanAdjacency(i)[b]
  {
  }
}

/** Slot arithmetic of a flat [x, y, z] vertex buffer (stride 3): slot i
    belongs to vertex i / 3 and holds x, y or z as i % 3 is 0, 1 or 2. */
module Layout {

  /** A loop that starts at a vertex's x slot still finds that vertex's y
      and z slots inside the buffer, and its next step is again an x slot. */
  lemma VertexInBounds(i: int, n: int)
    requires 0 <= i < n && i % 3 == 0 && n % 3 == 0
    ensures i + 3 <= n && (i + 1) % 3 == 1 && (i + 2) % 3 == 2 && (i + 3) % 3 == 0
    ensures (i + 1) / 3 == i / 3 && (i + 2) / 3 == i / 3
  {
  }

  /** The x and y slots of the vertex whose z slot is i. */
  lemma PlanarSlotsOf(i: int)
    requires 0 <= i && i % 3 == 2
    ensures 2 <= i && (i - 2) % 3 == 0 && (i - 1) % 3 == 1
  {
  }

  /** The z slot i of a buffer of n slots has its x and y slots before it,
      and its vertex i / 3 is one of the buffer's n / 3 vertices. */
  lemma ZSlotOf(i: int, n: int)
    requires 0 <= i < n && i % 3 == 2 && n % 3 == 0
    ensures 2 <= i && i / 3 < n / 3
  {
  }
}

/** Where the controller's three maps are stored. */
module Cells {
  import opened Wrappers
  import opened Storage

  function KeyCell(group: nat): Cell { Cell(GroupKeys, Some(group)) }
  function TrackerCell(node: nat): Cell { Cell(NodeKeysets, Some(node)) }
  function NodesCell(group: nat): Cell { Cell(GroupNodes, Some(group)) }

  function TrackerCells(nodes: set<nat>): (cells: set<Cell>)
    ensures forall c :: c in cells <==> c.key.NodeKeysets? && c.subkey.Some? && c.subkey.value in nodes
  {
    set n | n in nodes :: TrackerCell(n)
  }

  function NodesCells(groups: set<nat>): (cells: set<Cell>)
    ensures forall c :: c in cells <==> c.key.GroupNodes? && c.subkey.Some? && c.subkey.value in groups
  {
    set g | g in groups :: NodesCell(g)
  }
}

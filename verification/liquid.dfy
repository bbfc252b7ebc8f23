/** The `Liquid` component: a passive record of a liquid volume's physical
    constants and the world-space bounds of its box collider. */
module Liquids {
  import opened Bounds

  datatype Liquid = Liquid(viscosity: real, density: real, bounds: Box)
}

/**
 The colours the dashboard uses to classify readings. Each stands for the
 Tailwind class family the source picks (`text-red-500`, `bg-red-500`, ...);
 the class strings themselves are layout and are not modelled.
 */
module Palette {

  datatype Colour = Red | Orange | Yellow | Green | Blue | Purple | Slate

  /** How alarming a traffic-light colour reads: green < yellow/orange < red. */
  function Severity(c: Colour): nat
  {
    match c
    case Red => 2
    case Orange => 1
    case Yellow => 1
    case _ => 0
  }
}

/** The static configuration both clients read: which pins get a toggle button, and display names. */
module Settings {

  /** The pins the operator may switch, by physical pin number. */
  const PinsToControl: seq<int> := [12, 16, 18, 22, 32, 36, 40]

  /** Display names of the pins that have one, by physical pin number. */
  const PinNames: map<int, string> := map[
    1 := "3,3V", 2 := "5V", 3 := "SDA", 4 := "5V", 5 := "SCL", 6 := "GND",
    8 := "Tx", 9 := "GND", 10 := "Rx", 14 := "GND", 17 := "3.3V", 19 := "MOSI",
    20 := "GND", 21 := "MISO", 24 := "CE0", 25 := "GND", 26 := "CE1", 27 := "ID_SD",
    28 := "ID_SC", 30 := "GND", 34 := "GND", 35 := "MISO", 38 := "MOSI", 39 := "GND"
  ]
}

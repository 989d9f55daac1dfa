/** Bus packets, as the controller, the ranks and the banks exchange them. */
module Packets {
  import opened RowStore

  datatype PacketType = READ | READ_P | WRITE | WRITE_P | ACTIVATE | PRECHARGE | REFRESH | DATA

  datatype Command = Command(kind: PacketType, rank: nat, bank: nat, row: nat, column: nat, data: Payload)
}

/**
 The constants of common/protocol.h: kinds and sizes of messages, and limits on descriptors.
 */
module Messages {
  // control messages
  const CONSUMER_HELLO: nat := 1
  const PRODUCER_HELLO: nat := 2
  const SCREEN_INFO: nat := 7
  const PICKUP_FDS: nat := 9
  const FDS_READY: nat := 10

  // data messages
  const INPUT_EVENT: nat := 102
  const BUFS_READY: nat := 200
  const WINDOW_COMMAND: nat := 301

  // sizes of packed structures
  const HEADER_SIZE: nat := 8
  const SCREEN_INFO_SIZE: nat := 16
  const BUF_INFO_SIZE: nat := 20
  const INPUT_EVENT_SIZE: nat := 20
  const WINDOW_COMMAND_SIZE: nat := 8

  // descriptors in a hello, and in a buffer list
  const MAX_FDS: nat := 4
  const MAX_BUFS: nat := 8
}

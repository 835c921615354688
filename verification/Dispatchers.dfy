/** The data stores a record can be dispatched to. */
module Dispatchers {
  datatype Dispatcher = Pubsub | Kafka | Kinesis | Logger | Zmq | Mqtt | Redis
}

/** The values carried by the queues: the protocols never look inside them. */
module Values {
  type Value(==, !new)
}

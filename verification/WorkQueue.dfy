/** The contract of client-go's rate-limited work queue, as far as membership goes. */
module WorkQueue {

  /** client-go's queue without its order: Get may return any dirty key that is not being processed. */
  datatype Queue = Queue(dirty: set<string>, processing: set<string>, delayed: set<string>) {
    function Add(k: string): Queue {
      this.(dirty := dirty + {k})
    }

    function Get(k: string): Queue {
      this.(dirty := dirty - {k}, processing := processing + {k})
    }

    function Done(k: string): Queue {
      this.(processing := processing - {k})
    }

    function AddAfter(k: string): Queue {
      this.(delayed := delayed + {k})
    }

    function Fire(k: string): Queue {
      this.(dirty := dirty + {k}, delayed := delayed - {k})
    }

    predicate Has(k: string) {
      k in dirty || k in processing || k in delayed
    }
  }
}

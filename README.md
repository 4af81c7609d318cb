# mcuboot simulator: the `boot_go` wrapper

This project models the Rust wrapper through which mcuboot's simulator enters the
bootloader (the "loader"), in `sim/mcuboot-sys/src/c.rs`, and proves properties of it.

- **Outcome** (`outcome.dfy`): `BootGoResult` is either `Stopped` (the flash simulation cut
  the run short) or `Normal(result, asserts, resp)`. Its five queries are related to each
  other in their contracts: an interrupted run has no response and no asserts, a successful
  run is not interrupted, and "success without asserts" is success with an assert count of
  0. `Classify` is the wrapper's rule for the loader's return code: the sentinel
  `-0x13579` means `Stopped`, anything else is kept in `Normal`.
- **Invocation** (`invocation.dfy`): `Registry` holds the id-indexed table of bound flash
  devices. `Registry.BootGo` binds every device of the set, builds a fresh `SimContext`,
  calls the loader once, reads back the assert tally, writes the final fault counter into
  the caller's `FlashCounter` slot (if one is given), unbinds the set's ids and classifies
  the result. The loader is the oracle class `BootLoader`. Its `run` field is whatever the
  loader does with the context, the area descriptor, the bound devices and the response
  slot. Everything proved about `BootGo` therefore holds for every loader. The hash map's
  iteration order is modelled as an arbitrary choice, and `BindEachIsUnion` and
  `ClearEachIsDifference` show that the registry that results does not depend on it.
- **Encrypt** (`encrypt.dfy`): `RsaOaepEncrypt` and `KwEncrypt` allocate a zeroed buffer,
  let the foreign primitive fill it in place, and return either the whole buffer or
  `Err("Failed to encrypt buffer")`, depending on the primitive's status code. The
  primitives are also oracle classes.
- **CTypes** and **Wrappers**: the fixed-width integers that cross the C boundary (`i32`,
  `u8`, `u32`, and the `usize as u32` truncation), plus `Option` and `Result`.

Widths of the C context: `c.rs` fixes two of them. `flash_counter` is an `i32`, since it is
written back into the caller's `i32` slot (c.rs:92). `c_asserts` is a `u8`, since it is stored
in the `asserts: u8` field (c.rs:22, c.rs:90). The widths of `jumped` (`i32`) and
`c_catch_asserts` (`u8`) are assumed. `libc::c_int` is taken to be 32 bits. The response's
`flash_dev_id` and `image_off` are unbounded integers. The declarations in `api.rs` are not
part of this model.

Facts about the code that the model keeps:
- `keylen` is a byte count. `kw_encrypt` compares it with 32 (c.rs:135). A 32-byte key gets
  a 40-byte buffer and every other value a 24-byte buffer.
- With no counter slot, the loader starts from a counter of 0 (c.rs:73).
- An interrupted run is recognised only by the sentinel return code (c.rs:97). The
  context's `jumped` field is not consulted by the wrapper.

## Model

| member | source | states |
|---|---|---|
| `Outcome.BootGoResult.Interrupted` | sim/mcuboot-sys/src/c.rs:29-32 | true exactly for `Stopped` |
| `Outcome.BootGoResult.Resp` | sim/mcuboot-sys/src/c.rs:56-62 | `None` exactly when the run was interrupted; otherwise `Some` of the stored response |
| `Outcome.BootGoResult.Asserts` | sim/mcuboot-sys/src/c.rs:48-54 | 0 for an interrupted run whatever was tallied; the stored tally when a response is present |
| `Outcome.BootGoResult.Success` | sim/mcuboot-sys/src/c.rs:34-37 | true exactly for a `Normal` run with result 0; a successful run has a response and is not interrupted |
| `Outcome.BootGoResult.SuccessNoAsserts` | sim/mcuboot-sys/src/c.rs:39-46 | true exactly when `Success()` holds and `Asserts()` is 0; hence never for an interrupted run |
| `Outcome.Classify` | sim/mcuboot-sys/src/c.rs:97-101 | interrupted exactly when the return code is the sentinel `-0x13579`; otherwise carries that code, the tally and the response; no `Normal` outcome ever carries the sentinel |
| `Outcome.ClassifiedQueries` | sim/mcuboot-sys/src/c.rs:28-63 | on a classified outcome: success iff the return code is 0; success without asserts iff code and tally are 0; asserts 0 and no response when the code is the sentinel, else the tally and the response |
| `CTypes.TruncU32` | sim/mcuboot-sys/src/c.rs:123-124 | `len() as u32`: congruent to the length modulo 2^32, and equal to it when the length fits in 32 bits |
| `Invocation.StartContext` | sim/mcuboot-sys/src/c.rs:71-80 | the starting context: the counter is the caller's value, or 0 without a slot; `jumped` and `c_asserts` are 0; `c_catch_asserts` is 1 when asserts are caught and 0 otherwise |
| `Invocation.SimContext.constructor` | sim/mcuboot-sys/src/c.rs:71-80 | a fresh context holds exactly the four given field values |
| `Invocation.BootLoader.Invoke` | sim/mcuboot-sys/src/c.rs:86-89 | one call into the loader: the return code, the new context and the filled response are what the loader's behaviour gives for the context, areas, bound devices and response it was handed |
| `Invocation.Registry.SetFlash` | sim/mcuboot-sys/src/c.rs:68-70 | binds one device id to its flash, replacing any earlier binding, and changes nothing else |
| `Invocation.Registry.ClearFlash` | sim/mcuboot-sys/src/c.rs:94-96 | removes the binding of one device id and changes nothing else |
| `Invocation.BindEachIsUnion` | sim/mcuboot-sys/src/c.rs:68-70 | binding the set's devices in any order, with repetitions, gives the old registry overridden by exactly the visited devices |
| `Invocation.ClearEachIsDifference` | sim/mcuboot-sys/src/c.rs:94-96 | clearing ids in any order gives the old registry without exactly the visited ids |
| `Invocation.Registry.BootGo` | sim/mcuboot-sys/src/c.rs:66-102 | the loader runs once, on the wrapper's starting context, with every device of the set bound over the old registry; the outcome is `Stopped` iff the loader returned the sentinel, and otherwise `Normal` with its code, the final `c_asserts` and the filled response; a given counter slot then holds the loader's final counter on both paths; afterwards no id of the set is bound and every other binding is as before |
| `Encrypt.RsaOaepPrimitive.Invoke` | sim/mcuboot-sys/src/c.rs:162-164 | the RSA-OAEP primitive returns its status and fills the buffer in place |
| `Encrypt.KeyWrapPrimitive.Invoke` | sim/mcuboot-sys/src/c.rs:166-167 | the key-wrap primitive returns its status and fills the buffer in place |
| `Encrypt.RsaOaepEncrypt` | sim/mcuboot-sys/src/c.rs:120-130 | `Ok` iff the primitive returns 0, given both key lengths truncated to 32 bits; the ciphertext is exactly 256 bytes, the bytes the primitive wrote; otherwise the error "Failed to encrypt buffer" |
| `Encrypt.KwEncrypt` | sim/mcuboot-sys/src/c.rs:132-143 | `Ok` iff the primitive returns 0; the result is 40 bytes when `keylen` is 32 and 24 bytes otherwise, which for 16- and 32-byte keys is the key plus 8 bytes as AES key wrap prescribes; it holds the bytes the primitive wrote; otherwise the error "Failed to encrypt buffer" |

## Left out

- The loader itself (`invoke_boot_go`) and its setjmp/longjmp power-cut emulation: foreign C code. The model treats it as an arbitrary function of what it is handed, including how it changes the context.
- The flash simulation (`SimMultiFlash`) and the area descriptor are opaque type parameters. The loader's writes to the simulated flash are not modelled, because the flash devices are opaque values here.
- The bodies of `api::set_flash` and `api::clear_flash` are foreign. They are modelled as insert and remove on the registry map.
- The registry is process-wide shared state in the source. Here it is an explicit object, and concurrent invocations are not modelled (the harness is single-threaded).
- A loader that never returns is not represented. `BootLoader.run` is a total function, so `BootGo` always produces an outcome. A fatal assertion that aborts the process when `catch_asserts` is false is such a case.
- The `boot_jmpbuf` field of the context is left out: it exists only for the C side's longjmp.
- The `br_hdr` pointer exists in the model only as null or an address. Whether it points at a valid header is not modelled.
- The RSA-OAEP and AES key-wrap primitives are opaque. Only their status code and the bytes they leave in the buffer are modelled.
- `boot_trailer_sz`, `boot_status_sz`, `boot_magic_sz` and `boot_max_align` are one-line passthroughs to foreign functions, so they have no logic of their own to model.
- If the key-wrap primitive writes more bytes than the Rust buffer holds, that overflow is not modelled. The primitive is not told the buffer's length.
- A run over successive fault budgets switches from `Stopped` to `Normal` at some point, and that property depends on the loader, which is opaque here.
- `boot/mbed/mcuboot_main.cpp` is not modelled: it is hardware bring-up (crypto setup, logging, `exit`, the jump to the application).
